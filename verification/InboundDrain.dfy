// What draining a conversation does to the buffer, as a function: the drain
// lists the buffered rows, hands them on as one reply, and marks the rows it
// listed only after the reply went through. Other messages may land while a
// pass is in the middle of its reply.
module InboundDrain {
  import opened Common
  import opened InboundStore

  const MAX_DRAIN_PASSES := 5

  // What the reply pipeline answers; Raised stands for an exception.
  datatype Outcome = Processed(status: string, messageId: string) | Raised

  // landing(n): the messages buffered by others while pass n runs.
  type Landing = nat -> seq<Incoming>

  datatype DrainResult = DrainResult(processed: nat, passes: nat, status: string, messageId: Option<string>)

  const EMPTY_DRAIN := DrainResult(0, 0, "empty", None)

  datatype Drain = Drained(store: Store, result: DrainResult) | DrainRaised(store: Store)

  // One pass after a successful reply.
  function AfterPass(store: Store, tenant: string, conversation: string, now: int, landed: seq<Incoming>): Store {
    var events := Unprocessed(store.rows, tenant, conversation);
    var during := AppendedAll(store, landed);
    during.(rows := Marked(during.rows, tenant, IdSet(events), now))
  }

  function DrainFrom(
    store: Store, tenant: string, conversation: string, now: int,
    process: Reply -> Outcome, landing: Landing, acc: DrainResult): Drain
    decreases MAX_DRAIN_PASSES - acc.passes
  {
    var reply := Coalesce(Unprocessed(store.rows, tenant, conversation));
    if acc.passes >= MAX_DRAIN_PASSES || reply.None? then Drained(store, acc)
    else
      match process(reply.value)
      case Raised => DrainRaised(AppendedAll(store, landing(acc.passes)))
      case Processed(status, messageId) =>
        DrainFrom(
          AfterPass(store, tenant, conversation, now, landing(acc.passes)),
          tenant, conversation, now, process, landing,
          DrainResult(acc.processed + |reply.value.sourceIds|, acc.passes + 1, status, Some(messageId)))
  }

  // One unfolding of DrainFrom.
  lemma DrainUnfolds(
    store: Store, tenant: string, conversation: string, now: int,
    process: Reply -> Outcome, landing: Landing, acc: DrainResult)
    ensures var events := Unprocessed(store.rows, tenant, conversation);
            var reply := Coalesce(events);
            var d := DrainFrom(store, tenant, conversation, now, process, landing, acc);
            && (reply.None? <==> events == [])
            && (reply.Some? ==> |reply.value.sourceIds| == |events|)
            && (acc.passes >= MAX_DRAIN_PASSES || reply.None? ==> d == Drained(store, acc))
            && (acc.passes < MAX_DRAIN_PASSES && reply.Some? ==>
                  match process(reply.value)
                  case Raised => d == DrainRaised(AppendedAll(store, landing(acc.passes)))
                  case Processed(status, messageId) =>
                    d == DrainFrom(
                      AfterPass(store, tenant, conversation, now, landing(acc.passes)),
                      tenant, conversation, now, process, landing,
                      DrainResult(acc.processed + |events|, acc.passes + 1, status, Some(messageId))))
  {
    hide Coalesce, Unprocessed, AfterPass, AppendedAll;
    CoalesceTakesAll(store, tenant, conversation);
  }

  lemma CoalesceTakesAll(store: Store, tenant: string, conversation: string)
    ensures var events := Unprocessed(store.rows, tenant, conversation);
            && (Coalesce(events).None? <==> events == [])
            && (events != [] ==> |Coalesce(events).value.sourceIds| == |events|)
  {
  }

  // ------------------------------------------------------------ counting

  function CountProcessed(rows: seq<Event>): nat {
    if rows == [] then 0
    else (if rows[0].processedAt.Some? then 1 else 0) + CountProcessed(rows[1..])
  }

  lemma {:induction false} CountProcessedConcat(a: seq<Event>, b: seq<Event>)
    ensures CountProcessed(a + b) == CountProcessed(a) + CountProcessed(b)
  {
    if a == [] {
      assert a + b == b;
    } else {
      CountProcessedConcat(a[1..], b);
      assert (a + b)[1..] == a[1..] + b;
    }
  }

  lemma {:induction false} CountNone(rows: seq<Event>)
    requires forall i :: 0 <= i < |rows| ==> rows[i].processedAt.None?
    ensures CountProcessed(rows) == 0
  {
    if rows != [] {
      CountNone(rows[1..]);
    }
  }

  // Rows marked one for one with the rows a query selects.
  lemma {:induction false} CountMarked(a: seq<Event>, b: seq<Event>, q: Query)
    requires |a| == |b|
    requires forall i :: 0 <= i < |a| ==>
               if Selects(q, a[i]) then a[i].processedAt.None? && b[i].processedAt.Some? else b[i] == a[i]
    ensures CountProcessed(b) == CountProcessed(a) + |Filter(q, a)|
  {
    if a != [] {
      CountMarked(a[1..], b[1..], q);
    }
  }

  // ------------------------------------------------------------ one pass

  // Listing by id picks out the buffered rows and no others.
  lemma ListedIds(store: Store, tenant: string, conversation: string)
    requires StoreOk(store)
    ensures var ids := IdSet(Unprocessed(store.rows, tenant, conversation));
            && (forall i :: 0 <= i < |store.rows| ==>
                  (store.rows[i].id in ids <==> Buffered(store.rows[i], tenant, conversation)))
            && (forall id :: id in ids ==> id < store.nextId)
  {
    var events := Unprocessed(store.rows, tenant, conversation);
    forall i | 0 <= i < |store.rows|
      ensures store.rows[i].id in IdSet(events) <==> Buffered(store.rows[i], tenant, conversation)
    {
      assert store.rows[i] in store.rows;
      if store.rows[i].id in IdSet(events) {
        var e :| e in events && e.id == store.rows[i].id;
        var j :| 0 <= j < |store.rows| && store.rows[j] == e;
        assert i == j;
      }
    }
  }

  ghost predicate PassEffect(a: Store, b: Store, tenant: string, conversation: string, now: int)
  {
    && |a.rows| <= |b.rows|
    && (forall i :: 0 <= i < |a.rows| ==>
          b.rows[i] == if Buffered(a.rows[i], tenant, conversation)
                       then a.rows[i].(processedAt := Some(now), attempts := 1)
                       else a.rows[i])
    && (forall i :: |a.rows| <= i < |b.rows| ==> b.rows[i].processedAt.None? && a.nextId <= b.rows[i].id)
  }

  // A pass marks exactly the rows it listed: not the ones that landed while
  // it ran, and none of another conversation.
  lemma PassMarksWhatItListed(store: Store, tenant: string, conversation: string, now: int, landed: seq<Incoming>)
    requires StoreOk(store)
    ensures var after := AfterPass(store, tenant, conversation, now, landed);
            StoreOk(after) && Grows(store, after) && PassEffect(store, after, tenant, conversation, now)
  {
    var ids := IdSet(Unprocessed(store.rows, tenant, conversation));
    var during := AppendedAll(store, landed);
    AppendedAllGrows(store, landed);
    ListedIds(store, tenant, conversation);
    MarkOk(during, tenant, ids, now);
    forall i | 0 <= i < |store.rows|
      ensures during.rows[i] == store.rows[i]
    {
      assert during.rows[i] == during.rows[..|store.rows|][i];
    }
  }

  lemma PassCount(store: Store, after: Store, tenant: string, conversation: string, now: int)
    requires PassEffect(store, after, tenant, conversation, now)
    ensures CountProcessed(after.rows)
            == CountProcessed(store.rows) + |Unprocessed(store.rows, tenant, conversation)|
  {
    var n := |store.rows|;
    CountMarked(store.rows, after.rows[..n], BufferedIn(tenant, conversation));
    CountNone(after.rows[n..]);
    assert after.rows == after.rows[..n] + after.rows[n..];
    CountProcessedConcat(after.rows[..n], after.rows[n..]);
  }

  // ------------------------------------------------------------ the drain

  ghost predicate Cleared(a: Store, b: Store, tenant: string, conversation: string)
  {
    && |a.rows| <= |b.rows|
    && forall i :: 0 <= i < |a.rows| && Buffered(a.rows[i], tenant, conversation) ==> b.rows[i].processedAt.Some?
  }

  ghost predicate OthersKept(a: Store, b: Store, tenant: string, conversation: string)
  {
    && |a.rows| <= |b.rows|
    && forall i :: 0 <= i < |a.rows| && !Buffered(a.rows[i], tenant, conversation) ==> b.rows[i] == a.rows[i]
  }

  // A drain only ever marks rows of its own conversation. If it does not
  // raise it has processed every row that was there when it began, its count
  // is the number of rows that changed, and rows that landed meanwhile stay
  // behind only when all five passes were spent.
  lemma {:induction false} DrainContract(
    store: Store, tenant: string, conversation: string, now: int,
    process: Reply -> Outcome, landing: Landing, acc: DrainResult)
    requires StoreOk(store) && acc.passes <= MAX_DRAIN_PASSES
    ensures var d := DrainFrom(store, tenant, conversation, now, process, landing, acc);
            DrainKeeps(store, d, tenant, conversation, acc)
    decreases MAX_DRAIN_PASSES - acc.passes
  {
    hide Coalesce, DrainFrom, DrainKeeps, AfterPass, AppendedAll, Unprocessed, StoreOk, Grows, PassEffect;
    DrainUnfolds(store, tenant, conversation, now, process, landing, acc);
    var reply := Coalesce(Unprocessed(store.rows, tenant, conversation));
    if acc.passes >= MAX_DRAIN_PASSES || reply.None? {
      StopKeeps(store, tenant, conversation, acc);
    } else {
      var landed := landing(acc.passes);
      match process(reply.value) {
        case Raised =>
          RaiseKeeps(store, landed, tenant, conversation, acc);
        case Processed(status, messageId) =>
          var next := AfterPass(store, tenant, conversation, now, landed);
          var acc' := DrainResult(acc.processed + |reply.value.sourceIds|, acc.passes + 1, status, Some(messageId));
          PassMarksWhatItListed(store, tenant, conversation, now, landed);
          DrainContract(next, tenant, conversation, now, process, landing, acc');
          var d := DrainFrom(next, tenant, conversation, now, process, landing, acc');
          PassThenDrain(store, next, d, tenant, conversation, now, acc, acc');
      }
    }
  }

  lemma StopKeeps(store: Store, tenant: string, conversation: string, acc: DrainResult)
    requires StoreOk(store) && acc.passes <= MAX_DRAIN_PASSES
    requires acc.passes == MAX_DRAIN_PASSES || Unprocessed(store.rows, tenant, conversation) == []
    ensures DrainKeeps(store, Drained(store, acc), tenant, conversation, acc)
  {
    assert forall i :: 0 <= i < |store.rows| && Buffered(store.rows[i], tenant, conversation) ==>
        store.rows[i] in Unprocessed(store.rows, tenant, conversation);
  }

  lemma RaiseKeeps(store: Store, landed: seq<Incoming>, tenant: string, conversation: string, acc: DrainResult)
    requires StoreOk(store)
    ensures DrainKeeps(store, DrainRaised(AppendedAll(store, landed)), tenant, conversation, acc)
  {
    AppendedAllGrows(store, landed);
    var end := AppendedAll(store, landed);
    assert forall i :: 0 <= i < |store.rows| ==> end.rows[i] == end.rows[..|store.rows|][i];
  }

  lemma PassThenDrain(
    store: Store, next: Store, d: Drain, tenant: string, conversation: string, now: int,
    acc: DrainResult, acc': DrainResult)
    requires Grows(store, next) && PassEffect(store, next, tenant, conversation, now)
    requires DrainKeeps(next, d, tenant, conversation, acc')
    requires acc'.passes == acc.passes + 1
    requires acc'.processed == acc.processed + |Unprocessed(store.rows, tenant, conversation)|
    ensures DrainKeeps(store, d, tenant, conversation, acc)
  {
    PassCount(store, next, tenant, conversation, now);
    PassThenRest(store, next, d.store, tenant, conversation, now);
  }

  lemma PassThenRest(a: Store, b: Store, c: Store, tenant: string, conversation: string, now: int)
    requires Grows(a, b) && Grows(b, c)
    requires PassEffect(a, b, tenant, conversation, now) && OthersKept(b, c, tenant, conversation)
    ensures Grows(a, c) && OthersKept(a, c, tenant, conversation) && Cleared(a, c, tenant, conversation)
  {
    GrowsTransitive(a, b, c);
    assert forall i :: 0 <= i < |a.rows| ==> RowGrows(b.rows[i], c.rows[i]);
  }

  ghost predicate DrainKeeps(store: Store, d: Drain, tenant: string, conversation: string, acc: DrainResult) {
    && StoreOk(d.store) && Grows(store, d.store)
    && OthersKept(store, d.store, tenant, conversation)
    && (d.Drained? ==>
          && acc.passes <= d.result.passes <= 5
          && d.result.processed == acc.processed + CountProcessed(d.store.rows) - CountProcessed(store.rows)
          && (acc.passes < MAX_DRAIN_PASSES ==> Cleared(store, d.store, tenant, conversation))
          && (d.result.passes < 5 ==> Unprocessed(d.store.rows, tenant, conversation) == []))
  }

  // ------------------------------------------------------------ the reply that decides

  // The last pass found the buffer as `at`, handed on what it listed there, and
  // the answer to that is what the drain reports.
  ghost predicate AnsweredFrom(at: Store, after: Store, tenant: string, conversation: string, now: int,
      process: Reply -> Outcome, landed: seq<Incoming>, status: string, messageId: Option<string>)
  {
    var reply := Coalesce(Unprocessed(at.rows, tenant, conversation));
    && reply.Some? && messageId.Some? && process(reply.value) == Processed(status, messageId.value)
    && after == AfterPass(at, tenant, conversation, now, landed)
  }

  ghost predicate RaisedFrom(at: Store, after: Store, tenant: string, conversation: string,
      process: Reply -> Outcome, landed: seq<Incoming>)
  {
    var reply := Coalesce(Unprocessed(at.rows, tenant, conversation));
    reply.Some? && process(reply.value).Raised? && after == AppendedAll(at, landed)
  }

  ghost predicate Decided(store: Store, d: Drain, tenant: string, conversation: string, now: int,
      process: Reply -> Outcome, landing: Landing, acc: DrainResult)
  {
    match d
    case Drained(after, r) =>
      || d == Drained(store, acc)
      || (r.passes > acc.passes
          && exists at: Store :: Grows(store, at)
               && AnsweredFrom(at, after, tenant, conversation, now, process, landing(r.passes - 1),
                               r.status, r.messageId))
    case DrainRaised(after) =>
      exists at: Store, n: nat :: Grows(store, at) && RaisedFrom(at, after, tenant, conversation, process, landing(n))
  }

  // A drain reports the answer to the last reply it handed on, and raises only
  // where the pipeline raised on what it was handed.
  lemma {:induction false} LastReplyDecides(
    store: Store, tenant: string, conversation: string, now: int,
    process: Reply -> Outcome, landing: Landing, acc: DrainResult)
    requires StoreOk(store)
    ensures var d := DrainFrom(store, tenant, conversation, now, process, landing, acc);
            Decided(store, d, tenant, conversation, now, process, landing, acc)
    decreases MAX_DRAIN_PASSES - acc.passes
  {
    hide Coalesce, Unprocessed, DrainFrom, AppendedAll, AfterPass, Grows, StoreOk;
    DrainUnfolds(store, tenant, conversation, now, process, landing, acc);
    GrowsFromItself(store);
    var events := Unprocessed(store.rows, tenant, conversation);
    var reply := Coalesce(events);
    if acc.passes < MAX_DRAIN_PASSES && reply.Some? {
      match process(reply.value)
      case Raised =>
        assert RaisedFrom(store, AppendedAll(store, landing(acc.passes)), tenant, conversation, process,
                          landing(acc.passes));
      case Processed(status, messageId) =>
        var next := AfterPass(store, tenant, conversation, now, landing(acc.passes));
        var acc' := DrainResult(acc.processed + |events|, acc.passes + 1, status, Some(messageId));
        PassMarksWhatItListed(store, tenant, conversation, now, landing(acc.passes));
        LastReplyDecides(next, tenant, conversation, now, process, landing, acc');
        var d := DrainFrom(next, tenant, conversation, now, process, landing, acc');
        if d == Drained(next, acc') {
          assert AnsweredFrom(store, next, tenant, conversation, now, process, landing(acc'.passes - 1), status,
                              Some(messageId));
        } else {
          DecidedBefore(store, next, d, tenant, conversation, now, process, landing, acc, acc');
        }
    }
  }

  lemma GrowsFromItself(store: Store)
    ensures Grows(store, store)
  {
  }

  lemma DecidedBefore(store: Store, next: Store, d: Drain, tenant: string, conversation: string, now: int,
      process: Reply -> Outcome, landing: Landing, acc: DrainResult, acc': DrainResult)
    requires Grows(store, next) && Decided(next, d, tenant, conversation, now, process, landing, acc')
    requires d != Drained(next, acc') && acc'.passes == acc.passes + 1
    ensures Decided(store, d, tenant, conversation, now, process, landing, acc)
  {
    hide AnsweredFrom, RaisedFrom, Grows;
    match d
    case Drained(after, r) =>
      var at: Store :| Grows(next, at)
        && AnsweredFrom(at, after, tenant, conversation, now, process, landing(r.passes - 1), r.status, r.messageId);
      GrowsTransitive(store, next, at);
    case DrainRaised(after) =>
      var at: Store, n: nat :| Grows(next, at) && RaisedFrom(at, after, tenant, conversation, process, landing(n));
      GrowsTransitive(store, next, at);
  }

  // ------------------------------------------------------------ quiet drains

  lemma QuietPassLeavesNothing(store: Store, tenant: string, conversation: string, now: int)
    requires StoreOk(store)
    ensures Unprocessed(AfterPass(store, tenant, conversation, now, []).rows, tenant, conversation) == []
  {
    assert AppendedAll(store, []) == store;
    var next := AfterPass(store, tenant, conversation, now, []);
    var left := Unprocessed(next.rows, tenant, conversation);
    assert |left| > 0 ==> left[0] in left;
    PassMarksWhatItListed(store, tenant, conversation, now, []);
    assert forall i :: 0 <= i < |next.rows| ==> !Buffered(next.rows[i], tenant, conversation);
    assert forall e :: e in next.rows ==> !Buffered(e, tenant, conversation);
    assert forall e :: e !in left;
  }

  // With nothing landing meanwhile, one pass is all a drain takes.
  lemma QuietDrainTakesOnePass(
    store: Store, tenant: string, conversation: string, now: int, process: Reply -> Outcome, landing: Landing)
    requires StoreOk(store) && landing(0) == []
    requires Unprocessed(store.rows, tenant, conversation) != []
    ensures var d := DrainFrom(store, tenant, conversation, now, process, landing, EMPTY_DRAIN);
            d.Drained? ==> d.result.passes == 1 && d.result.processed == |Unprocessed(store.rows, tenant, conversation)|
  {
    hide DrainFrom, Coalesce, AfterPass, Unprocessed;
    var events := Unprocessed(store.rows, tenant, conversation);
    DrainUnfolds(store, tenant, conversation, now, process, landing, EMPTY_DRAIN);
    match process(Coalesce(events).value)
    case Raised =>
    case Processed(status, messageId) =>
      QuietPassLeavesNothing(store, tenant, conversation, now);
      DrainUnfolds(AfterPass(store, tenant, conversation, now, []), tenant, conversation, now, process, landing,
                   DrainResult(|events|, 1, status, Some(messageId)));
  }

  lemma {:induction false} QuietPipelineNeverRaises(
    store: Store, tenant: string, conversation: string, now: int,
    process: Reply -> Outcome, landing: Landing, acc: DrainResult)
    requires forall reply :: process(reply).Processed?
    ensures DrainFrom(store, tenant, conversation, now, process, landing, acc).Drained?
    decreases MAX_DRAIN_PASSES - acc.passes
  {
    hide Coalesce, DrainFrom;
    DrainUnfolds(store, tenant, conversation, now, process, landing, acc);
    var events := Unprocessed(store.rows, tenant, conversation);
    var reply := Coalesce(events);
    if acc.passes < MAX_DRAIN_PASSES && reply.Some? {
      var outcome := process(reply.value);
      QuietPipelineNeverRaises(
        AfterPass(store, tenant, conversation, now, landing(acc.passes)), tenant, conversation, now, process, landing,
        DrainResult(acc.processed + |events|, acc.passes + 1, outcome.status, Some(outcome.messageId)));
    }
  }

  // ------------------------------------------------------------ one drain after another

  // The buffer in the end, and how many conversations were drained before one raised.
  datatype Drains = Drains(store: Store, drained: nat)

  function DrainAll(
    store: Store, tenant: string, keys: seq<string>, now: int,
    process: Reply -> Outcome, landing: string -> Landing): (r: Drains)
    ensures r.drained <= |keys|
    decreases |keys|
  {
    if keys == [] then Drains(store, 0)
    else
      match DrainFrom(store, tenant, keys[0], now, process, landing(keys[0]), EMPTY_DRAIN)
      case DrainRaised(after) => Drains(after, 0)
      case Drained(after, _) =>
        var rest := DrainAll(after, tenant, keys[1..], now, process, landing);
        Drains(rest.store, rest.drained + 1)
  }

  // Whether the drain of the n-th conversation, in its turn, goes through.
  ghost predicate DrainsInTurn(
    store: Store, tenant: string, keys: seq<string>, now: int,
    process: Reply -> Outcome, landing: string -> Landing, n: nat)
    requires n < |keys|
  {
    DrainFrom(DrainAll(store, tenant, keys[..n], now, process, landing).store,
              tenant, keys[n], now, process, landing(keys[n]), EMPTY_DRAIN).Drained?
  }

  // All conversations are drained exactly when every drain, in its turn, goes
  // through; and otherwise it ends at the first that does not.
  lemma {:induction false} AllDrainedIff(
    store: Store, tenant: string, keys: seq<string>, now: int, process: Reply -> Outcome, landing: string -> Landing)
    ensures var drained := DrainAll(store, tenant, keys, now, process, landing).drained;
            && (drained == |keys| <==>
                  forall n :: 0 <= n < |keys| ==> DrainsInTurn(store, tenant, keys, now, process, landing, n))
            && (forall n :: 0 <= n < drained ==> DrainsInTurn(store, tenant, keys, now, process, landing, n))
            && (drained < |keys| ==> !DrainsInTurn(store, tenant, keys, now, process, landing, drained))
    decreases |keys|
  {
    hide DrainFrom;
    if keys != [] {
      var first := DrainFrom(store, tenant, keys[0], now, process, landing(keys[0]), EMPTY_DRAIN);
      assert keys[..0] == [];
      assert DrainsInTurn(store, tenant, keys, now, process, landing, 0) <==> first.Drained?;
      if first.Drained? {
        AllDrainedIff(first.store, tenant, keys[1..], now, process, landing);
        forall n | 1 <= n < |keys|
          ensures DrainsInTurn(store, tenant, keys, now, process, landing, n)
                  <==> DrainsInTurn(first.store, tenant, keys[1..], now, process, landing, n - 1)
        {
          assert keys[..n][1..] == keys[1..][..n - 1];
        }
        var drained := DrainAll(first.store, tenant, keys[1..], now, process, landing).drained + 1;
        assert drained < |keys| ==> !DrainsInTurn(store, tenant, keys, now, process, landing, drained);
      }
    }
  }

  // A pipeline that raises on no reply never cuts a sweep short.
  lemma {:induction false} QuietPipelineDrainsAll(
    store: Store, tenant: string, keys: seq<string>, now: int, process: Reply -> Outcome, landing: string -> Landing)
    requires forall reply :: process(reply).Processed?
    ensures DrainAll(store, tenant, keys, now, process, landing).drained == |keys|
    decreases |keys|
  {
    hide DrainFrom;
    if keys != [] {
      QuietPipelineNeverRaises(store, tenant, keys[0], now, process, landing(keys[0]), EMPTY_DRAIN);
      var first := DrainFrom(store, tenant, keys[0], now, process, landing(keys[0]), EMPTY_DRAIN);
      QuietPipelineDrainsAll(first.store, tenant, keys[1..], now, process, landing);
    }
  }
}
