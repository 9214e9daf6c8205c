// Fast-ack intake, arming, draining and sweeping, as the registry runs them.
module InboundRegistry {
  import opened Common
  import opened Ordering
  import opened InboundStore
  import opened InboundDrain
  import opened DeadLetters
  import Text

  datatype WorkflowId = WorkflowId(tenant: string, conversation: string, burst: nat)

  datatype Ack = Ignored | Duplicate(messageId: string) | Accepted(messageId: string)
               | Answered(status: string, messageId: string) | Failed

  datatype Sweep =
    | Swept(rearmed: nat, keys: seq<string>, deadLettered: nat)
    | SweepRaised(key: string)

  // sorted({e.conversation_key for e in stuck})
  function Distinct(events: seq<Event>): (r: seq<string>)
    ensures forall c :: c in r <==> c in Conversations(events)
    ensures forall i, j :: 0 <= i < j < |r| ==> r[i] != r[j]
  {
    if events == [] then []
    else
      var front, last := events[..|events| - 1], events[|events| - 1];
      var r := Distinct(front);
      assert forall e :: e in events <==> e in front || e == last;
      if last.conversation in r then r else r + [last.conversation]
  }

  function GroupMap(events: seq<Event>): map<string, seq<Event>> {
    map c | c in Conversations(events) :: Group(events, c)
  }

  lemma OneMoreName(front: seq<Event>, e: Event)
    ensures Conversations(front + [e]) == Conversations(front) + {e.conversation}
    ensures Distinct(front + [e])
            == if e.conversation in Conversations(front) then Distinct(front) else Distinct(front) + [e.conversation]
  {
    var s := front + [e];
    assert s[..|s| - 1] == front && s[|s| - 1] == e;
    assert forall x :: x in s <==> x in front || x == e;
    assert e in s;
    forall c
      ensures c in Conversations(s) <==> c in Conversations(front) || c == e.conversation
    {
      if c in Conversations(front) {
        var x :| x in front && x.conversation == c;
        assert x in s;
      }
    }
  }

  lemma OneMoreInGroup(front: seq<Event>, e: Event, c: string)
    ensures Group(front + [e], c) == if c == e.conversation then Group(front, c) + [e] else Group(front, c)
    ensures c !in Conversations(front) ==> Group(front, c) == []
  {
    var s := front + [e];
    assert s[..|s| - 1] == front && s[|s| - 1] == e;
    if Group(front, c) != [] {
      var x := Group(front, c)[0];
      assert x in Group(front, c) && x in front && x.conversation == c;
      assert c in Conversations(front);
    }
  }

  lemma KeysOfGroups(events: seq<Event>)
    ensures GroupMap(events).Keys == Conversations(events)
  {
  }

  lemma GroupOfMap(events: seq<Event>, c: string)
    ensures c in GroupMap(events) <==> c in Conversations(events)
    ensures c in GroupMap(events) ==> GroupMap(events)[c] == Group(events, c)
  {
    hide Group, Conversations;
  }

  // What one more event does to the groups.
  lemma OneMoreEvent(front: seq<Event>, e: Event)
    ensures var c := e.conversation;
            GroupMap(front + [e]) ==
              GroupMap(front)[c := (if c in GroupMap(front) then GroupMap(front)[c] else []) + [e]]
  {
    hide *;
    var c := e.conversation;
    OneMoreName(front, e);
    GroupOfMap(front, c);
    OneMoreInGroup(front, e, c);
    var left := GroupMap(front + [e]);
    var right := GroupMap(front)[c := (if c in GroupMap(front) then GroupMap(front)[c] else []) + [e]];
    forall x
      ensures x in left <==> x in right
      ensures x in left && x in right ==> left[x] == right[x]
    {
      GroupOfMap(front, x);
      GroupOfMap(front + [e], x);
      OneMoreInGroup(front, e, x);
    }
  }

  lemma NothingGrouped()
    ensures Distinct([]) == [] && GroupMap([]) == map[]
  {
  }

  function ByName(c: string): Stamp {
    Stamp(0, c)
  }

  function SweepKeys(stuck: seq<Event>): (r: seq<string>)
    ensures forall c :: c in r <==> c in Conversations(stuck)
  {
    Sort(ByName, Distinct(stuck))
  }

  function Names(s: seq<string>): set<string> {
    set c | c in s
  }

  lemma {:induction false} NoDuplicatesCount(s: seq<string>)
    requires forall i, j :: 0 <= i < j < |s| ==> s[i] != s[j]
    ensures |Names(s)| == |s|
  {
    if s != [] {
      var front, last := s[..|s| - 1], s[|s| - 1];
      NoDuplicatesCount(front);
      assert Names(s) == Names(front) + {last};
    }
  }

  lemma SweepKeysCount(stuck: seq<Event>)
    ensures |SweepKeys(stuck)| == |Conversations(stuck)|
    ensures var keys := SweepKeys(stuck); forall i, j :: 0 <= i < j < |keys| ==> Text.Less(keys[i], keys[j])
  {
    var names, keys := Distinct(stuck), SweepKeys(stuck);
    SortPermutes(ByName, names);
    NoDuplicatesCount(names);
    assert Names(names) == Conversations(stuck);
    SortSorted(ByName, names);
    hide Distinct, Sort;
    forall i, j | 0 <= i < j < |keys|
      ensures Text.Less(keys[i], keys[j])
    {
      NotTwice(names, keys, i, j);
      Text.LessTotal(keys[i], keys[j]);
      assert !Before(ByName(keys[j]), ByName(keys[i]));
    }
  }

  lemma NotTwice(a: seq<string>, b: seq<string>, i: nat, j: nat)
    requires multiset(a) == multiset(b) && i < j < |b|
    requires forall m, n :: 0 <= m < n < |a| ==> a[m] != a[n]
    ensures b[i] != b[j]
  {
    if b[i] == b[j] {
      var s := b[..j];
      assert b == s + [b[j]] + b[j + 1..] && s[i] in s;
      assert multiset(b)[b[j]] >= 2;
      OnceEach(a, b[j]);
    }
  }

  lemma {:induction false} OnceEach(a: seq<string>, c: string)
    requires forall m, n :: 0 <= m < n < |a| ==> a[m] != a[n]
    ensures multiset(a)[c] <= 1
  {
    if a != [] {
      var front := a[..|a| - 1];
      assert a == front + [a[|a| - 1]] && a[|a| - 1] !in front;
      OnceEach(front, c);
    }
  }

  // Every buffered row of the done conversations is processed, and no row of
  // any other has been touched.
  ghost predicate SweptSoFar(a: Store, b: Store, tenant: string, done: seq<string>)
  {
    && |a.rows| <= |b.rows|
    && forall i :: 0 <= i < |a.rows| ==>
      if a.rows[i].tenant == tenant && a.rows[i].conversation in done
      then b.rows[i].processedAt.Some?
      else b.rows[i] == a.rows[i]
  }

  // The drain of keys[n] raised: the conversations before it are done, those
  // after it have not been touched.
  ghost predicate CutShort(a: Store, b: Store, tenant: string, keys: seq<string>, n: nat)
    requires n < |keys|
  {
    && |a.rows| <= |b.rows|
    && forall i :: 0 <= i < |a.rows| ==>
      && (a.rows[i].tenant == tenant && a.rows[i].conversation in keys[..n] ==> b.rows[i].processedAt.Some?)
      && (a.rows[i].tenant != tenant || a.rows[i].conversation !in keys[..n + 1] ==> b.rows[i] == a.rows[i])
  }

  ghost predicate AllStuckProcessed(a: Store, b: Store, tenant: string, cutoff: int)
  {
    && |a.rows| <= |b.rows|
    && forall i :: 0 <= i < |a.rows| && IsStuck(a.rows[i], tenant, cutoff) ==> b.rows[i].processedAt.Some?
  }

  lemma SweepOneMore(a: Store, b: Store, d: Drain, tenant: string, keys: seq<string>, n: nat)
    requires n < |keys|
    requires Grows(a, b) && SweptSoFar(a, b, tenant, keys[..n])
    requires DrainKeeps(b, d, tenant, keys[n], EMPTY_DRAIN)
    ensures StoreOk(d.store) && Grows(a, d.store)
    ensures d.Drained? ==> SweptSoFar(a, d.store, tenant, keys[..n + 1])
    ensures d.DrainRaised? ==> CutShort(a, d.store, tenant, keys, n)
  {
    GrowsTransitive(a, b, d.store);
    assert forall c :: c in keys[..n + 1] <==> c in keys[..n] || c == keys[n];
    assert forall i :: 0 <= i < |a.rows| ==> RowGrows(a.rows[i], b.rows[i]) && RowGrows(b.rows[i], d.store.rows[i]);
  }

  lemma NothingSweptYet(a: Store, tenant: string)
    ensures Grows(a, a) && SweptSoFar(a, a, tenant, [])
  {
  }

  // What a finished sweep leaves stuck can only have landed while it ran.
  lemma OnlyLateArrivalsRemain(a: Store, b: Store, tenant: string, cutoff: int)
    requires Grows(a, b) && AllStuckProcessed(a, b, tenant, cutoff)
    ensures forall i :: 0 <= i < |b.rows| && IsStuck(b.rows[i], tenant, cutoff) ==> i >= |a.rows|
    ensures |b.rows| == |a.rows| ==> ListStuck(b.rows, tenant, cutoff) == []
  {
    var left := ListStuck(b.rows, tenant, cutoff);
    forall i | 0 <= i < |b.rows| && IsStuck(b.rows[i], tenant, cutoff)
      ensures i >= |a.rows|
    {
      assert i < |a.rows| ==> RowGrows(a.rows[i], b.rows[i]);
    }
    forall e | e in left
      ensures |b.rows| > |a.rows|
    {
      var k :| 0 <= k < |b.rows| && b.rows[k] == e;
    }
    assert |left| > 0 ==> left[0] in left;
  }

  // A fresh insert leaves its conversation with a burst to arm.
  lemma JustAppended(store: Store, m: Incoming)
    requires !Known(store.rows, m)
    ensures var after := Appended(store, m);
            && Grows(store, after) && |after.rows| == |store.rows| + 1
            && Buffered(after.rows[|store.rows|], m.tenant, ConversationKey(m))
            && BurstKey(Unprocessed(after.rows, m.tenant, ConversationKey(m))).Some?
            && Unprocessed(after.rows, m.tenant, ConversationKey(m)) != []
  {
    var after := Appended(store, m);
    assert after.rows[|store.rows|] in Unprocessed(after.rows, m.tenant, ConversationKey(m));
  }

  lemma KnownChangesNothing(store: Store, m: Incoming)
    requires Known(store.rows, m)
    ensures Appended(store, m) == store
  {
  }

  // What an inline drain that began with a burst answers: the last reply's
  // answer, addressed to the new message where the pipeline names none.
  ghost predicate InlineAck(mid: Store, d: Drain, ack: Ack, m: Incoming, now: int,
      process: Reply -> Outcome, landing: Landing)
  {
    match d
    case Drained(after, r) =>
      && r.passes > 0 && r.messageId.Some?
      && ack == Answered(r.status, if r.messageId.value != "" then r.messageId.value else m.messageRef)
      && exists at: Store :: Grows(mid, at)
           && AnsweredFrom(at, after, m.tenant, ConversationKey(m), now, process, landing(r.passes - 1),
                           r.status, r.messageId)
    case DrainRaised(after) =>
      && ack == Failed
      && exists at: Store, n: nat ::
           Grows(mid, at) && RaisedFrom(at, after, m.tenant, ConversationKey(m), process, landing(n))
  }

  // A drain that begins with a burst hands on at least one reply.
  lemma BurstIsDecided(mid: Store, m: Incoming, now: int, process: Reply -> Outcome, landing: Landing)
    requires StoreOk(mid) && Unprocessed(mid.rows, m.tenant, ConversationKey(m)) != []
    ensures var d := DrainFrom(mid, m.tenant, ConversationKey(m), now, process, landing, EMPTY_DRAIN);
            && Decided(mid, d, m.tenant, ConversationKey(m), now, process, landing, EMPTY_DRAIN)
            && d != Drained(mid, EMPTY_DRAIN)
  {
    hide Coalesce, Unprocessed, DrainFrom, AppendedAll, AfterPass, Decided;
    var c := ConversationKey(m);
    LastReplyDecides(mid, m.tenant, c, now, process, landing, EMPTY_DRAIN);
    DrainUnfolds(mid, m.tenant, c, now, process, landing, EMPTY_DRAIN);
    match process(Coalesce(Unprocessed(mid.rows, m.tenant, c)).value)
    case Raised =>
    case Processed(status, messageId) =>
      var next := AfterPass(mid, m.tenant, c, now, landing(0));
      var acc' := DrainResult(|Unprocessed(mid.rows, m.tenant, c)|, 1, status, Some(messageId));
      PassMarksWhatItListed(mid, m.tenant, c, now, landing(0));
      DrainContract(next, m.tenant, c, now, process, landing, acc');
  }

  lemma InlineIsAnswered(mid: Store, m: Incoming, now: int, process: Reply -> Outcome, landing: Landing)
    requires StoreOk(mid) && Unprocessed(mid.rows, m.tenant, ConversationKey(m)) != []
    ensures var d := DrainFrom(mid, m.tenant, ConversationKey(m), now, process, landing, EMPTY_DRAIN);
            match d
            case Drained(_, r) =>
              && r.messageId.Some?
              && var id := if r.messageId.value != "" then r.messageId.value else m.messageRef;
              && InlineAck(mid, d, Answered(r.status, id), m, now, process, landing)
            case DrainRaised(_) => InlineAck(mid, d, Failed, m, now, process, landing)
  {
    hide Coalesce, Unprocessed, DrainFrom, AppendedAll, AfterPass, Grows, RaisedFrom, ConversationKey;
    BurstIsDecided(mid, m, now, process, landing);
  }

  // Where the pipeline raises on nothing, an inline drain goes through.
  lemma QuietInline(mid: Store, m: Incoming, now: int, process: Reply -> Outcome, landing: Landing)
    ensures (forall reply :: process(reply).Processed?) ==>
              DrainFrom(mid, m.tenant, ConversationKey(m), now, process, landing, EMPTY_DRAIN).Drained?
  {
    if forall reply :: process(reply).Processed? {
      QuietPipelineNeverRaises(mid, m.tenant, ConversationKey(m), now, process, landing, EMPTY_DRAIN);
    }
  }

  class Registry {
    const inlineProcessing: bool
    const deadLetterSeconds: int
    const maxRetries: int
    var store: Store
    var letters: Letters
    // The workflow engine: every id ever started, and the signals sent.
    var started: set<WorkflowId>
    var pings: seq<WorkflowId>

    constructor (inlineProcessing: bool, deadLetterSeconds: int, maxRetries: int)
      ensures StoreOk(store) && store.rows == [] && letters == map[] && started == {} && pings == []
    {
      this.inlineProcessing := inlineProcessing;
      this.deadLetterSeconds := deadLetterSeconds;
      this.maxRetries := maxRetries;
      store := Store([], 0);
      letters := map[];
      started, pings := {}, [];
    }

    method Append(m: Incoming) returns (inserted: bool)
      requires StoreOk(store)
      modifies this`store
      ensures StoreOk(store) && store == Appended(old(store), m)
      ensures inserted <==> !Known(old(store.rows), m)
    {
      AppendOk(store, m);
      inserted := !Known(store.rows, m);
      store := Appended(store, m);
    }

    method ArmReplyCoalesce(tenant: string, conversation: string)
      modifies this`started, this`pings
      ensures match BurstKey(Unprocessed(store.rows, tenant, conversation))
              case None => started == old(started) && pings == old(pings)
              case Some(burst) =>
                var id := WorkflowId(tenant, conversation, burst);
                started == old(started) + {id} && pings == old(pings) + [id]
    {
      var burst := BurstKey(Unprocessed(store.rows, tenant, conversation));
      if burst.None? {
        return;
      }
      var id := WorkflowId(tenant, conversation, burst.value);
      if id !in started {
        started := started + {id};
      }
      pings := pings + [id];
    }

    method DrainConversation(tenant: string, conversation: string, now: int,
        process: Reply -> Outcome, landing: Landing)
      returns (result: Option<DrainResult>)
      requires StoreOk(store)
      modifies this`store
      ensures match DrainFrom(old(store), tenant, conversation, now, process, landing, EMPTY_DRAIN)
              case Drained(after, r) => store == after && result == Some(r)
              case DrainRaised(after) => store == after && result == None
      ensures result.Some? ==> DrainKeeps(old(store), Drained(store, result.value), tenant, conversation, EMPTY_DRAIN)
      ensures result.None? ==> DrainKeeps(old(store), DrainRaised(store), tenant, conversation, EMPTY_DRAIN)
    {
      hide Coalesce, DrainFrom, DrainKeeps;
      ghost var whole := DrainFrom(store, tenant, conversation, now, process, landing, EMPTY_DRAIN);
      DrainContract(store, tenant, conversation, now, process, landing, EMPTY_DRAIN);
      var acc := EMPTY_DRAIN;
      while acc.passes < MAX_DRAIN_PASSES
        invariant acc.passes <= MAX_DRAIN_PASSES
        invariant whole == DrainFrom(store, tenant, conversation, now, process, landing, acc)
        decreases MAX_DRAIN_PASSES - acc.passes
      {
        DrainUnfolds(store, tenant, conversation, now, process, landing, acc);
        var events := Unprocessed(store.rows, tenant, conversation);
        var reply := Coalesce(events);
        if reply.None? {
          break;
        }
        var outcome := process(reply.value);
        store := AppendedAll(store, landing(acc.passes));
        if outcome.Raised? {
          return None;
        }
        store := store.(rows := Marked(store.rows, tenant, IdSet(events), now));
        acc := DrainResult(acc.processed + |reply.value.sourceIds|, acc.passes + 1,
                           outcome.status, Some(outcome.messageId));
      }
      if acc.passes == MAX_DRAIN_PASSES {
        DrainUnfolds(store, tenant, conversation, now, process, landing, acc);
      }
      return Some(acc);
    }

    // Insert once; then drain on the spot, or arm the burst's workflow.
    method EnqueueInboundChatEvent(
      mapped: Option<Incoming>, now: int, process: Reply -> Outcome, landing: Landing) returns (ack: Ack)
      requires StoreOk(store)
      modifies this`store, this`started, this`pings
      ensures StoreOk(store) && Grows(old(store), store)
      ensures mapped.None? ==>
                ack == Ignored && store == old(store) && started == old(started) && pings == old(pings)
      ensures mapped.Some? && Known(old(store.rows), mapped.value) ==>
                ack == Duplicate(mapped.value.messageRef) && store == old(store)
                && started == old(started) && pings == old(pings)
      ensures mapped.Some? && !Known(old(store.rows), mapped.value) && !inlineProcessing ==>
                var m := mapped.value;
                && ack == Accepted(m.messageRef)
                && store == Appended(old(store), m)
                && exists burst :: && BurstKey(Unprocessed(store.rows, m.tenant, ConversationKey(m))) == Some(burst)
                                   && started == old(started) + {WorkflowId(m.tenant, ConversationKey(m), burst)}
                                   && pings == old(pings) + [WorkflowId(m.tenant, ConversationKey(m), burst)]
      ensures mapped.Some? && !Known(old(store.rows), mapped.value) && inlineProcessing ==>
                var m, mid := mapped.value, Appended(old(store), mapped.value);
                var d := DrainFrom(mid, m.tenant, ConversationKey(m), now, process, landing, EMPTY_DRAIN);
                && started == old(started) && pings == old(pings)
                && store == d.store && InlineAck(mid, d, ack, m, now, process, landing)
                && (ack.Answered? ==> |old(store.rows)| < |store.rows|
                                      && store.rows[|old(store.rows)|].processedAt.Some?)
                && ((forall reply :: process(reply).Processed?) ==> ack.Answered?)
    {
      hide StoreOk, DrainFrom, Unprocessed, BurstKey, Appended, ConversationKey, Grows, InlineAck;
      GrowsFromItself(store);
      if mapped.None? {
        return Ignored;
      }
      var m := mapped.value;
      var inserted := Append(m);
      if !inserted {
        KnownChangesNothing(old(store), m);
        return Duplicate(m.messageRef);
      }
      ghost var mid := store;
      var conversation := ConversationKey(m);
      JustAppended(old(store), m);
      if inlineProcessing {
        InlineIsAnswered(mid, m, now, process, landing);
        QuietInline(mid, m, now, process, landing);
        var drained := DrainConversation(m.tenant, conversation, now, process, landing);
        GrowsTransitive(old(store), mid, store);
        if drained.None? {
          return Failed;
        }
        var id := if drained.value.messageId.Some? && drained.value.messageId.value != ""
                  then drained.value.messageId.value else m.messageRef;
        return Answered(drained.value.status, id);
      }
      ArmReplyCoalesce(m.tenant, conversation);
      return Accepted(m.messageRef);
    }

    // by_conversation, and the order its keys were first met in
    method GroupByConversation(exhausted: seq<Event>) returns (order: seq<string>, groups: map<string, seq<Event>>)
      ensures order == Distinct(exhausted)
      ensures groups == GroupMap(exhausted)
    {
      hide Distinct, GroupMap, Conversations, Group;
      NothingGrouped();
      order, groups := [], map[];
      for i := 0 to |exhausted|
        invariant order == Distinct(exhausted[..i])
        invariant groups == GroupMap(exhausted[..i])
      {
        var event := exhausted[i];
        var c := event.conversation;
        OneMoreName(exhausted[..i], event);
        OneMoreEvent(exhausted[..i], event);
        KeysOfGroups(exhausted[..i]);
        assert exhausted[..i + 1] == exhausted[..i] + [event];
        if c !in groups {
          order := order + [c];
        }
        groups := groups[c := (if c in groups then groups[c] else []) + [event]];
      }
      assert exhausted[..|exhausted|] == exhausted;
    }

    method RecordInboundDeadLetters(tenant: string, stuck: seq<Event>, reference: int) returns (count: nat)
      modifies this`letters
      ensures var exhausted := Exhausted(stuck, reference - deadLetterSeconds, maxRetries);
              && Recorded(old(letters), letters, tenant, exhausted, Conversations(exhausted), reference)
              && count == |Conversations(exhausted)|
    {
      var exhausted := Exhausted(stuck, reference - deadLetterSeconds, maxRetries);
      hide Recorded, Exhausted, Group, Distinct, IdOf, LetterFor, FirstSeen, MostAttempts;
      if exhausted == [] {
        NothingRecordedYet(letters, tenant, exhausted, reference);
        assert Conversations(exhausted) == {};
        return 0;
      }
      NothingRecordedYet(letters, tenant, exhausted, reference);
      var order, groups := GroupByConversation(exhausted);
      assert Names(order[..0]) == {};
      for j := 0 to |order|
        invariant Names(order[..j]) <= Conversations(exhausted)
        invariant Recorded(old(letters), letters, tenant, exhausted, Names(order[..j]), reference)
      {
        var c := order[j];
        var events := groups[c];
        LetterOfGroup(tenant, exhausted, c, reference);
        RecordOneMore(old(letters), letters, tenant, exhausted, Names(order[..j]), c, reference);
        assert Names(order[..j + 1]) == Names(order[..j]) + {c};
        var id := LetterId(tenant, c, FirstSeen(events));
        letters := letters[id := Upserted(letters, id, Letter(Ids(events), MostAttempts(events), reference, Open))];
      }
      assert order[..|order|] == order;
      assert Names(order) == Conversations(exhausted);
      NoDuplicatesCount(order);
      return |order|;
    }

    // Drains the conversations in the order given; the first drain to raise
    // ends the loop. Returns how many were drained.
    method DrainEach(tenant: string, keys: seq<string>, now: int, process: Reply -> Outcome, landing: string -> Landing)
      returns (drained: nat)
      requires StoreOk(store)
      modifies this`store
      ensures StoreOk(store) && Grows(old(store), store)
      ensures Drains(store, drained) == DrainAll(old(store), tenant, keys, now, process, landing)
      ensures drained == |keys| ==> SweptSoFar(old(store), store, tenant, keys)
      ensures drained < |keys| ==> CutShort(old(store), store, tenant, keys, drained)
    {
      NothingSweptYet(store, tenant);
      assert keys[..0] == [];
      hide DrainFrom, DrainKeeps, StoreOk, Grows, SweptSoFar, CutShort;
      for n := 0 to |keys|
        invariant StoreOk(store) && Grows(old(store), store)
        invariant var rest := DrainAll(store, tenant, keys[n..], now, process, landing);
                  DrainAll(old(store), tenant, keys, now, process, landing) == Drains(rest.store, n + rest.drained)
        invariant SweptSoFar(old(store), store, tenant, keys[..n])
      {
        ghost var before := store;
        assert keys[n..][0] == keys[n] && keys[n..][1..] == keys[n + 1..];
        var result := DrainConversation(tenant, keys[n], now, process, landing(keys[n]));
        ghost var d := if result.Some? then Drained(store, result.value) else DrainRaised(store);
        SweepOneMore(old(store), before, d, tenant, keys, n);
        if result.None? {
          return n;
        }
      }
      assert keys[..|keys|] == keys;
      return |keys|;
    }

    // Records the dead letters of what it found stuck, then drains the stuck
    // conversations in name order; a drain that raises ends the sweep there.
    method SweepInboundEvents(
      tenant: string, graceSeconds: int, reference: int, now: int,
      process: Reply -> Outcome, landing: string -> Landing) returns (sweep: Sweep)
      requires StoreOk(store)
      modifies this`store, this`letters
      ensures StoreOk(store) && Grows(old(store), store)
      ensures var exhausted := Exhausted(ListStuck(old(store.rows), tenant, reference - graceSeconds),
                                         reference - deadLetterSeconds, maxRetries);
              && Recorded(old(letters), letters, tenant, exhausted, Conversations(exhausted), reference)
              && (sweep.Swept? ==> sweep.deadLettered == |Conversations(exhausted)|)
      ensures var keys := SweepKeys(ListStuck(old(store.rows), tenant, reference - graceSeconds));
              var drains := DrainAll(old(store), tenant, keys, now, process, landing);
              && store == drains.store
              && (sweep.Swept? <==> drains.drained == |keys|)
              && match sweep
              case Swept(rearmed, done, deadLettered) =>
                && done == keys && rearmed == |keys| && deadLettered <= rearmed
                && AllStuckProcessed(old(store), store, tenant, reference - graceSeconds)
              case SweepRaised(key) =>
                && key == keys[drains.drained]
                && CutShort(old(store), store, tenant, keys, drains.drained)
    {
      hide DrainAll, DrainFrom, Recorded, Exhausted, ListStuck, SweepKeys;
      hide StoreOk, Grows, SweptSoFar, CutShort, AllStuckProcessed;
      var cutoff := reference - graceSeconds;
      var stuck := ListStuck(store.rows, tenant, cutoff);
      var keys := SweepKeys(stuck);
      var deadLettered := RecordInboundDeadLetters(tenant, stuck, reference);
      var drained := DrainEach(tenant, keys, now, process, landing);
      if drained < |keys| {
        return SweepRaised(keys[drained]);
      }
      SweepCounts(stuck, reference - deadLetterSeconds, maxRetries);
      SweptMeansProcessed(old(store), store, tenant, cutoff);
      return Swept(|keys|, keys, deadLettered);
    }
  }

  lemma SweepCounts(stuck: seq<Event>, deadBefore: int, maxRetries: int)
    ensures |Conversations(Exhausted(stuck, deadBefore, maxRetries))| <= |SweepKeys(stuck)|
  {
    SweepKeysCount(stuck);
    SubsetCount(Conversations(Exhausted(stuck, deadBefore, maxRetries)), Conversations(stuck));
  }

  lemma SubsetCount<T>(a: set<T>, b: set<T>)
    requires a <= b
    ensures |a| <= |b|
  {
    assert b == a + (b - a);
  }

  lemma SweptMeansProcessed(a: Store, b: Store, tenant: string, cutoff: int)
    requires SweptSoFar(a, b, tenant, SweepKeys(ListStuck(a.rows, tenant, cutoff)))
    ensures AllStuckProcessed(a, b, tenant, cutoff)
  {
    forall i | 0 <= i < |a.rows| && IsStuck(a.rows[i], tenant, cutoff)
      ensures a.rows[i].conversation in SweepKeys(ListStuck(a.rows, tenant, cutoff))
    {
      assert a.rows[i] in ListStuck(a.rows, tenant, cutoff);
    }
  }
}
