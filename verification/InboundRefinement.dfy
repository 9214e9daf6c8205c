// The registry's methods and the interleaved protocol speak of the same
// buffer: the rows of the one are the table of the other. A whole drain of the
// registry, by a workflow or by a sweep and whatever lands meanwhile, is a run
// of the protocol, and so is a whole sweep.
module InboundRefinement {
  import opened Common
  import opened Ordering
  import opened InboundDrain
  import opened InboundStore
  import opened InboundProtocol
  import opened InboundRegistry

  // A buffer's rows by id.
  ghost predicate IsTable(rows: seq<Event>, table: map<nat, Event>) {
    && (forall e :: e in rows ==> e.id in table && table[e.id] == e)
    && (forall id :: id in table ==> table[id] in rows && table[id].id == id)
  }

  // Intake's insert is the protocol's Deliver.
  lemma AppendIsDeliver(store: Store, s: State, m: Incoming)
    requires StoreOk(store) && IsTable(store.rows, s.rows) && s.nextId == store.nextId
    ensures var s' := Apply(s, Deliver(m));
            && IsTable(Appended(store, m).rows, s'.rows)
            && s'.nextId == Appended(store, m).nextId
            && (s' == s <==> Known(store.rows, m))
  {
    if Known(store.rows, m) {
      var r :| r in store.rows && SameDelivery(r, NewEvent(0, m));
      assert r.id in s.rows;
    } else {
      assert forall id :: id in s.rows ==> s.rows[id] in store.rows;
      assert forall e :: e in store.rows ==> e.id < store.nextId;
    }
  }

  // A pass lists the rows the protocol's List holds, and marks them alike.
  lemma ListAndMarkAgree(store: Store, s: State, p: Place, now: int)
    requires StoreOk(store) && IsTable(store.rows, s.rows)
    ensures var ids := IdSet(Unprocessed(store.rows, p.tenant, p.conversation));
            && ids == BufferedIds(s, p)
            && IsTable(Marked(store.rows, p.tenant, ids, now), MarkIds(s.rows, p.tenant, ids, now))
  {
    var events := Unprocessed(store.rows, p.tenant, p.conversation);
    forall id | id in BufferedIds(s, p)
      ensures id in IdSet(events)
    {
      assert s.rows[id] in events;
    }
    hide IsTable;
    MarkAgrees(store.rows, s.rows, p.tenant, IdSet(events), now);
  }

  lemma MarkAgrees(rows: seq<Event>, table: map<nat, Event>, tenant: string, ids: set<nat>, now: int)
    requires IsTable(rows, table)
    ensures IsTable(Marked(rows, tenant, ids, now), MarkIds(table, tenant, ids, now))
  {
    var marked, after := Marked(rows, tenant, ids, now), MarkIds(table, tenant, ids, now);
    forall e | e in marked
      ensures e.id in after && after[e.id] == e
    {
      var i :| 0 <= i < |marked| && marked[i] == e;
      assert rows[i] in rows;
    }
    forall id | id in after
      ensures after[id] in marked && after[id].id == id
    {
      var i :| 0 <= i < |rows| && rows[i] == table[id];
      assert marked[i] == after[id];
    }
  }

  // The key the registry arms is one the protocol may read.
  lemma ArmedKeyIsBurstKey(store: Store, s: State, p: Place)
    requires StoreOk(store) && IsTable(store.rows, s.rows)
    ensures match BurstKey(Unprocessed(store.rows, p.tenant, p.conversation))
            case None => BufferedIds(s, p) == {}
            case Some(k) => IsBurstKey(s, p, k)
  {
    var events := Unprocessed(store.rows, p.tenant, p.conversation);
    ListAndMarkAgree(store, s, p, 0);
    if events != [] {
      var k := Earliest(events).id;
      assert Earliest(events) in events;
      forall x | x in BufferedIds(s, p)
        ensures !Before(EventStamp(s.rows[x]), EventStamp(s.rows[k]))
      {
        assert s.rows[x] in events;
        EarliestIsLeast(events, s.rows[x]);
      }
    }
  }

  // The engine of the one has started what the engine of the other has.
  ghost predicate SameStarted(s: State, started: set<WorkflowId>) {
    && s.engine.Keys <= s.home.Keys
    && started == set k | k in s.engine && k in s.home :: WorkflowId(s.home[k].tenant, s.home[k].conversation, k)
  }

  // How an intake past its insert arms its conversation.
  function ArmSteps(r: nat, burst: Option<nat>): seq<Step> {
    match burst
    case None => [NothingToArm(r)]
    case Some(k) => [ReadKey(r, k), Start(r)]
  }

  function Armed(started: set<WorkflowId>, p: Place, burst: Option<nat>): set<WorkflowId> {
    match burst
    case None => started
    case Some(k) => started + {WorkflowId(p.tenant, p.conversation, k)}
  }

  // The registry's arming is a run of the protocol: it starts the same
  // workflow, or nothing where the buffer has been emptied meanwhile.
  lemma ArmIsARun(store: Store, s: State, started: set<WorkflowId>, r: nat, p: Place)
    requires StoreOk(store) && IsTable(store.rows, s.rows) && s.nextId == store.nextId && RowsOk(s)
    requires SameStarted(s, started) && r in s.arming && s.arming[r].None? && r in s.home && s.home[r] == p
    ensures var burst := BurstKey(Unprocessed(store.rows, p.tenant, p.conversation));
            var e := Run(s, ArmSteps(r, burst));
            && e.rows == s.rows && e.nextId == s.nextId && r !in e.arming
            && SameStarted(e, Armed(started, p, burst))
  {
    hide IsTable, StoreOk, Unprocessed, BurstKey;
    ArmedKeyIsBurstKey(store, s, p);
    match BurstKey(Unprocessed(store.rows, p.tenant, p.conversation))
    case None =>
      RunFirst(s, NothingToArm(r), []);
    case Some(k) =>
      BurstKeyIsHome(s, p, k);
      KeyStarts(s, started, r, k, p);
  }

  lemma BurstKeyIsHome(s: State, p: Place, k: nat)
    requires RowsOk(s) && IsBurstKey(s, p, k)
    ensures k in s.home && s.home[k] == p
  {
  }

  lemma KeyStarts(s: State, started: set<WorkflowId>, r: nat, k: nat, p: Place)
    requires SameStarted(s, started) && r in s.arming && s.arming[r].None? && r in s.home && s.home[r] == p
    requires IsBurstKey(s, p, k) && k in s.home && s.home[k] == p
    ensures var e := Run(s, [ReadKey(r, k), Start(r)]);
            && e.rows == s.rows && e.nextId == s.nextId && r !in e.arming
            && SameStarted(e, started + {WorkflowId(p.tenant, p.conversation, k)})
  {
    hide IsBurstKey;
    var mid := Apply(s, ReadKey(r, k));
    var e := Apply(mid, Start(r));
    RunFirst(s, ReadKey(r, k), [Start(r)]);
    RunFirst(mid, Start(r), []);
    assert e.engine.Keys == s.engine.Keys + {k};
  }

  // A durable intake, from its insert to its arming, is a run of the protocol.
  lemma IntakeIsARun(store: Store, s: State, started: set<WorkflowId>, m: Incoming)
    requires StoreOk(store) && IsTable(store.rows, s.rows) && s.nextId == store.nextId && Inv(s)
    requires SameStarted(s, started)
    ensures var after, p := Appended(store, m), Place(m.tenant, ConversationKey(m));
            var burst := BurstKey(Unprocessed(after.rows, p.tenant, p.conversation));
            var known := Known(store.rows, m);
            var e := Run(s, [Deliver(m)] + if known then [] else ArmSteps(store.nextId, burst));
            && IsTable(after.rows, e.rows) && e.nextId == after.nextId
            && SameStarted(e, if known then started else Armed(started, p, burst))
  {
    hide Inv, StoreOk, IsTable, Unprocessed, BurstKey, Appended, Known, ArmSteps, Armed;
    AppendIsDeliver(store, s, m);
    AppendOk(store, m);
    var mid, p := Apply(s, Deliver(m)), Place(m.tenant, ConversationKey(m));
    var burst := BurstKey(Unprocessed(Appended(store, m).rows, p.tenant, p.conversation));
    if Known(store.rows, m) {
      RunFirst(s, Deliver(m), []);
    } else {
      RunFirst(s, Deliver(m), ArmSteps(store.nextId, burst));
      DeliverKeeps(s, m);
      InvRows(mid);
      InvRows(s);
      NewIsArming(s, started, m);
      ArmIsARun(Appended(store, m), mid, started, store.nextId, p);
    }
  }

  lemma NewIsArming(s: State, started: set<WorkflowId>, m: Incoming)
    requires RowsOk(s) && SameStarted(s, started) && Apply(s, Deliver(m)) != s
    ensures var mid := Apply(s, Deliver(m));
            && SameStarted(mid, started) && s.nextId in mid.arming && mid.arming[s.nextId].None?
            && s.nextId in mid.home && mid.home[s.nextId] == Place(m.tenant, ConversationKey(m))
  {
    hide InsertedBefore;
    var mid := Apply(s, Deliver(m));
    assert s.nextId !in s.home;
    assert forall k :: k in s.engine ==> k in s.home && mid.home[k] == s.home[k];
  }

  // What the registry's sweep lists is what the protocol's sweep targets.
  lemma StuckAgree(store: Store, s: State, tenant: string, cutoff: int)
    requires StoreOk(store) && IsTable(store.rows, s.rows)
    ensures IdSet(ListStuck(store.rows, tenant, cutoff)) == StuckIds(s, tenant, cutoff)
  {
    var stuck := ListStuck(store.rows, tenant, cutoff);
    forall id | id in StuckIds(s, tenant, cutoff)
      ensures id in IdSet(stuck)
    {
      assert s.rows[id] in stuck;
    }
  }

  // ------------------------------------------------------------ whole drains and sweeps

  function Deliveries(ms: seq<Incoming>): seq<Step>
    decreases |ms|
  {
    if ms == [] then [] else [Deliver(ms[0])] + Deliveries(ms[1..])
  }

  function ListBy(a: Actor): Step {
    match a
    case ByWorkflow(k) => List(k)
    case BySweep(n) => SweepList(n)
  }

  function HandBy(a: Actor): Step {
    match a
    case ByWorkflow(k) => Hand(k)
    case BySweep(n) => SweepHand(n)
  }

  function MarkBy(a: Actor, now: int): Step {
    match a
    case ByWorkflow(k) => Mark(k, now)
    case BySweep(n) => SweepMark(n, now)
  }

  // A drain that raises is run again by its workflow, and ends its sweep.
  function RaiseBy(a: Actor): Step {
    match a
    case ByWorkflow(k) => Retry(k)
    case BySweep(n) => SweepRaise(n)
  }

  // The steps by which one actor drains a conversation.
  function DrainSteps(
    a: Actor, store: Store, p: Place, now: int,
    process: Reply -> Outcome, landing: Landing, acc: DrainResult): seq<Step>
    decreases MAX_DRAIN_PASSES - acc.passes
  {
    var events := Unprocessed(store.rows, p.tenant, p.conversation);
    var reply := Coalesce(events);
    if acc.passes >= MAX_DRAIN_PASSES then []
    else if reply.None? then [ListBy(a)]
    else
      var landed := landing(acc.passes);
      match process(reply.value)
      case Raised => [ListBy(a)] + (Deliveries(landed) + [RaiseBy(a)])
      case Processed(status, messageId) =>
        PassSteps(a, now, landed) +
          DrainSteps(a, AfterPass(store, p.tenant, p.conversation, now, landed), p, now, process, landing,
                     DrainResult(acc.processed + |events|, acc.passes + 1, status, Some(messageId)))
  }

  function PassSteps(a: Actor, now: int, landed: seq<Incoming>): seq<Step> {
    [ListBy(a)] + (Deliveries(landed) + [HandBy(a), MarkBy(a, now)])
  }

  // Both sides hold the same rows and will give the next one the same id.
  ghost predicate Agree(store: Store, s: State) {
    StoreOk(store) && IsTable(store.rows, s.rows) && s.nextId == store.nextId
  }

  lemma RunThen(s: State, a: seq<Step>, b: seq<Step>, mid: State)
    requires Run(s, a) == mid
    ensures Run(s, a + b) == Run(mid, b)
  {
    RunConcat(s, a, b);
  }

  // The actor drains p and is in that pass, holding those rows.
  ghost predicate At(s: State, a: Actor, p: Place, pass: nat, hold: Option<set<nat>>, sent: bool) {
    match a
    case ByWorkflow(k) =>
      && k in s.engine && k in s.home && k < s.nextId && s.home[k] == p
      && s.engine[k] == Workflow(s.engine[k].step, pass, hold, sent, Running)
    case BySweep(n) =>
      && n in s.sweepers && s.sweepers[n].keys != []
      && p == Place(s.sweepers[n].tenant, s.sweepers[n].keys[0])
      && s.sweepers[n] == Sweeper(p.tenant, s.sweepers[n].keys, pass, hold, sent, s.sweepers[n].targets)
  }

  // Still the same drain.
  ghost predicate SameDrain(s: State, e: State, a: Actor) {
    && e.swept == s.swept
    && match a
       case ByWorkflow(k) => k in s.engine && k in e.engine && e.engine[k].step == s.engine[k].step
       case BySweep(n) =>
         && n in s.sweepers && n in e.sweepers
         && e.sweepers[n].keys == s.sweepers[n].keys && e.sweepers[n].targets == s.sweepers[n].targets
  }

  // A drain that went through: a sweep turns to its next conversation, and a
  // workflow to its next drain unless this one found nothing or was the fifth.
  ghost predicate DrainDone(s: State, e: State, a: Actor, any: bool) {
    && e.swept == s.swept
    && match a
       case ByWorkflow(k) =>
         && k in s.engine && k in e.engine
         && var step := s.engine[k].step;
         e.engine[k] == if any then Workflow(step + 1, 0, None, false, if step == 4 then Finished else Running)
                        else Workflow(step, 0, None, false, Finished)
       case BySweep(n) =>
         && n in s.sweepers && n in e.sweepers && s.sweepers[n].keys != []
         && e.sweepers[n]
            == Sweeper(s.sweepers[n].tenant, s.sweepers[n].keys[1..], 0, None, false, s.sweepers[n].targets)
  }

  // A drain that raised.
  ghost predicate DrainRaisedBy(s: State, e: State, a: Actor) {
    && e.swept == s.swept
    && match a
       case ByWorkflow(k) =>
         k in s.engine && k in e.engine && e.engine[k] == Workflow(s.engine[k].step, 0, None, false, Running)
       case BySweep(n) => n !in e.sweepers
  }

  // What deliveries leave alone.
  ghost predicate Landed(s: State, e: State) {
    && e.engine == s.engine && e.sweepers == s.sweepers && e.swept == s.swept && s.nextId <= e.nextId
    && forall id: nat :: id in s.home && id < s.nextId ==> id in e.home && e.home[id] == s.home[id]
  }

  lemma {:induction false} DeliveriesAgree(store: Store, s: State, ms: seq<Incoming>)
    requires Agree(store, s)
    ensures Agree(AppendedAll(store, ms), Run(s, Deliveries(ms))) && Landed(s, Run(s, Deliveries(ms)))
    decreases |ms|
  {
    hide Apply, StoreOk, IsTable, Appended;
    if ms != [] {
      AppendOk(store, ms[0]);
      AppendIsDeliver(store, s, ms[0]);
      DeliverLands(s, ms[0]);
      RunFirst(s, Deliver(ms[0]), Deliveries(ms[1..]));
      DeliveriesAgree(Appended(store, ms[0]), Apply(s, Deliver(ms[0])), ms[1..]);
    }
  }

  lemma DeliverLands(s: State, m: Incoming)
    ensures Enabled(s, Deliver(m)) && Landed(s, Apply(s, Deliver(m)))
  {
  }

  lemma ListHolds(a: Actor, store: Store, s: State, p: Place, pass: nat)
    requires Agree(store, s) && At(s, a, p, pass, None, false)
    requires Unprocessed(store.rows, p.tenant, p.conversation) != []
    ensures Enabled(s, ListBy(a))
    ensures var s' := Apply(s, ListBy(a));
            && Agree(store, s') && SameDrain(s, s', a)
            && At(s', a, p, pass, Some(IdSet(Unprocessed(store.rows, p.tenant, p.conversation))), false)
  {
    hide StoreOk, IsTable, BufferedIds;
    ListAndMarkAgree(store, s, p, 0);
    var events := Unprocessed(store.rows, p.tenant, p.conversation);
    assert events[0].id in IdSet(events);
  }

  lemma HandHolds(a: Actor, store: Store, s: State, p: Place, pass: nat, ids: set<nat>)
    requires Agree(store, s) && At(s, a, p, pass, Some(ids), false)
    ensures Enabled(s, HandBy(a))
    ensures var s' := Apply(s, HandBy(a));
            Agree(store, s') && SameDrain(s, s', a) && At(s', a, p, pass, Some(ids), true)
  {
    hide StoreOk, IsTable;
  }

  lemma MarkMoves(a: Actor, store: Store, s: State, p: Place, pass: nat, ids: set<nat>, now: int)
    requires Agree(store, s) && At(s, a, p, pass, Some(ids), true)
    ensures Enabled(s, MarkBy(a, now))
    ensures var s' := Apply(s, MarkBy(a, now));
            && Agree(store.(rows := Marked(store.rows, p.tenant, ids, now)), s')
            && if pass + 1 == MAX_PASSES then DrainDone(s, s', a, true)
               else SameDrain(s, s', a) && At(s', a, p, pass + 1, None, false)
  {
    hide StoreOk, IsTable, Marked, MarkIds, BufferedIds;
    MarkOk(store, p.tenant, ids, now);
    MarkAgrees(store.rows, s.rows, p.tenant, ids, now);
  }

  // One pass whose reply went through: list, what lands meanwhile, hand on, mark.
  lemma PassIsARun(a: Actor, store: Store, s: State, p: Place, pass: nat, now: int, landed: seq<Incoming>)
    requires Agree(store, s) && At(s, a, p, pass, None, false)
    requires Unprocessed(store.rows, p.tenant, p.conversation) != []
    ensures var e := Run(s, PassSteps(a, now, landed));
            && Agree(AfterPass(store, p.tenant, p.conversation, now, landed), e)
            && if pass + 1 == MAX_PASSES then DrainDone(s, e, a, true)
               else SameDrain(s, e, a) && At(e, a, p, pass + 1, None, false)
  {
    hide Agree, Apply, Enabled, Unprocessed, IdSet, Marked, AppendedAll, Deliveries, Run, ListBy, HandBy, MarkBy;
    var ids := IdSet(Unprocessed(store.rows, p.tenant, p.conversation));
    ListHolds(a, store, s, p, pass);
    var listed := Apply(s, ListBy(a));
    var during := Run(listed, Deliveries(landed));
    DeliveriesAgree(store, listed, landed);
    RunFirst(s, ListBy(a), Deliveries(landed) + [HandBy(a), MarkBy(a, now)]);
    RunThen(listed, Deliveries(landed), [HandBy(a), MarkBy(a, now)], during);
    HandThenMark(a, AppendedAll(store, landed), during, p, pass, ids, now);
  }

  lemma HandThenMark(a: Actor, store: Store, s: State, p: Place, pass: nat, ids: set<nat>, now: int)
    requires Agree(store, s) && At(s, a, p, pass, Some(ids), false)
    ensures var e := Run(s, [HandBy(a), MarkBy(a, now)]);
            && Agree(store.(rows := Marked(store.rows, p.tenant, ids, now)), e)
            && if pass + 1 == MAX_PASSES then DrainDone(s, e, a, true)
               else SameDrain(s, e, a) && At(e, a, p, pass + 1, None, false)
  {
    hide Agree, Apply, Enabled, Marked, HandBy, MarkBy;
    HandHolds(a, store, s, p, pass, ids);
    var handed := Apply(s, HandBy(a));
    MarkMoves(a, store, handed, p, pass, ids, now);
    RunFirst(s, HandBy(a), [MarkBy(a, now)]);
    RunFirst(handed, MarkBy(a, now), []);
  }

  lemma RaiseIsARun(a: Actor, store: Store, s: State, p: Place, pass: nat, landed: seq<Incoming>)
    requires Agree(store, s) && At(s, a, p, pass, None, false)
    requires Unprocessed(store.rows, p.tenant, p.conversation) != []
    ensures var e := Run(s, [ListBy(a)] + (Deliveries(landed) + [RaiseBy(a)]));
            Agree(AppendedAll(store, landed), e) && DrainRaisedBy(s, e, a)
  {
    hide Agree, Apply, Enabled, Unprocessed, IdSet, AppendedAll, Deliveries, Run, ListBy, RaiseBy;
    var ids := IdSet(Unprocessed(store.rows, p.tenant, p.conversation));
    ListHolds(a, store, s, p, pass);
    var listed := Apply(s, ListBy(a));
    var during := Run(listed, Deliveries(landed));
    DeliveriesAgree(store, listed, landed);
    RunFirst(s, ListBy(a), Deliveries(landed) + [RaiseBy(a)]);
    RunThen(listed, Deliveries(landed), [RaiseBy(a)], during);
    RaiseEnds(a, AppendedAll(store, landed), during, p, pass, ids);
  }

  lemma RaiseEnds(a: Actor, store: Store, s: State, p: Place, pass: nat, ids: set<nat>)
    requires Agree(store, s) && At(s, a, p, pass, Some(ids), false)
    ensures var e := Run(s, [RaiseBy(a)]);
            Agree(store, e) && DrainRaisedBy(s, e, a)
  {
    hide StoreOk, IsTable;
    assert Enabled(s, RaiseBy(a));
    RunFirst(s, RaiseBy(a), []);
  }

  lemma EmptyListIsARun(a: Actor, store: Store, s: State, p: Place, pass: nat)
    requires Agree(store, s) && At(s, a, p, pass, None, false)
    requires Unprocessed(store.rows, p.tenant, p.conversation) == []
    ensures var e := Run(s, [ListBy(a)]);
            Agree(store, e) && DrainDone(s, e, a, pass > 0)
  {
    hide StoreOk, IsTable, BufferedIds, Unprocessed;
    ListAndMarkAgree(store, s, p, 0);
    assert Enabled(s, ListBy(a));
    RunFirst(s, ListBy(a), []);
  }

  lemma DrainStepsUnfold(
    a: Actor, store: Store, p: Place, now: int, process: Reply -> Outcome, landing: Landing, acc: DrainResult)
    ensures var events := Unprocessed(store.rows, p.tenant, p.conversation);
            var reply, landed := Coalesce(events), landing(acc.passes);
            var steps := DrainSteps(a, store, p, now, process, landing, acc);
            && (acc.passes >= MAX_DRAIN_PASSES ==> steps == [])
            && (acc.passes < MAX_DRAIN_PASSES && reply.None? ==> steps == [ListBy(a)])
            && (acc.passes < MAX_DRAIN_PASSES && reply.Some? ==>
                  match process(reply.value)
                  case Raised => steps == [ListBy(a)] + (Deliveries(landed) + [RaiseBy(a)])
                  case Processed(status, messageId) =>
                    steps == PassSteps(a, now, landed) +
                      DrainSteps(a, AfterPass(store, p.tenant, p.conversation, now, landed), p, now, process, landing,
                                 DrainResult(acc.processed + |events|, acc.passes + 1, status, Some(messageId))))
  {
    hide Coalesce, Unprocessed, AfterPass, Deliveries, PassSteps;
  }

  lemma PassesGrow(
    store: Store, s: State, p: Place, now: int, process: Reply -> Outcome, landing: Landing, acc: DrainResult)
    requires Agree(store, s) && acc.passes <= MAX_DRAIN_PASSES
    ensures var d := DrainFrom(store, p.tenant, p.conversation, now, process, landing, acc);
            d.Drained? ==> acc.passes <= d.result.passes
  {
    hide DrainFrom, StoreOk, IsTable;
    DrainContract(store, p.tenant, p.conversation, now, process, landing, acc);
  }

  // What a drain, gone through or raised, has left.
  ghost predicate DrainOutcome(s: State, e: State, a: Actor, d: Drain) {
    && Agree(d.store, e)
    && match d
       case Drained(_, result) => DrainDone(s, e, a, result.passes > 0)
       case DrainRaised(_) => DrainRaisedBy(s, e, a)
  }

  // A drain of the registry, by a workflow or by a sweep, is what those steps do.
  lemma {:induction false} DrainIsARun(
    a: Actor, store: Store, s: State, p: Place, now: int,
    process: Reply -> Outcome, landing: Landing, acc: DrainResult)
    requires Agree(store, s) && acc.passes < MAX_DRAIN_PASSES && At(s, a, p, acc.passes, None, false)
    ensures var d := DrainFrom(store, p.tenant, p.conversation, now, process, landing, acc);
            DrainOutcome(s, Run(s, DrainSteps(a, store, p, now, process, landing, acc)), a, d)
    decreases MAX_DRAIN_PASSES - acc.passes
  {
    hide Agree, DrainFrom, DrainSteps, Coalesce, Unprocessed, AfterPass, AppendedAll, Deliveries, Run, PassSteps;
    var events := Unprocessed(store.rows, p.tenant, p.conversation);
    DrainUnfolds(store, p.tenant, p.conversation, now, process, landing, acc);
    DrainStepsUnfold(a, store, p, now, process, landing, acc);
    var reply, landed := Coalesce(events), landing(acc.passes);
    if reply.None? {
      EmptyListIsARun(a, store, s, p, acc.passes);
    } else {
      match process(reply.value)
      case Raised =>
        RaiseIsARun(a, store, s, p, acc.passes, landed);
      case Processed(status, messageId) =>
        var next := AfterPass(store, p.tenant, p.conversation, now, landed);
        var acc' := DrainResult(acc.processed + |events|, acc.passes + 1, status, Some(messageId));
        var rest := DrainSteps(a, next, p, now, process, landing, acc');
        var after := Run(s, PassSteps(a, now, landed));
        PassIsARun(a, store, s, p, acc.passes, now, landed);
        RunThen(s, PassSteps(a, now, landed), rest, after);
        DrainUnfolds(next, p.tenant, p.conversation, now, process, landing, acc');
        if acc'.passes < MAX_DRAIN_PASSES {
          DrainIsARun(a, next, after, p, now, process, landing, acc');
          PassesGrow(next, after, p, now, process, landing, acc');
        } else {
          DrainStepsUnfold(a, next, p, now, process, landing, acc');
          RunNothing(after);
        }
    }
  }

  // The steps of sweep n that drain what is left of its conversations.
  function KeySteps(
    n: nat, store: Store, tenant: string, keys: seq<string>, now: int,
    process: Reply -> Outcome, landing: string -> Landing): seq<Step>
    decreases |keys|
  {
    if keys == [] then [SweepDone(n)]
    else
      var steps := DrainSteps(BySweep(n), store, Place(tenant, keys[0]), now, process, landing(keys[0]), EMPTY_DRAIN);
      match DrainFrom(store, tenant, keys[0], now, process, landing(keys[0]), EMPTY_DRAIN)
      case DrainRaised(_) => steps
      case Drained(after, _) => steps + KeySteps(n, after, tenant, keys[1..], now, process, landing)
  }

  lemma {:induction false} DrainsAreARun(
    n: nat, store: Store, s: State, tenant: string, keys: seq<string>, now: int,
    process: Reply -> Outcome, landing: string -> Landing)
    requires Agree(store, s) && n in s.sweepers
    requires s.sweepers[n] == Sweeper(tenant, keys, 0, None, false, s.sweepers[n].targets)
    ensures var d := DrainAll(store, tenant, keys, now, process, landing);
            var e := Run(s, KeySteps(n, store, tenant, keys, now, process, landing));
            && Agree(d.store, e) && n !in e.sweepers
            && e.swept == if d.drained == |keys| then s.swept + s.sweepers[n].targets else s.swept
    decreases |keys|
  {
    hide Agree, Apply, DrainFrom, DrainSteps, Run;
    if keys == [] {
      DoneIsARun(n, store, s);
    } else {
      DrainIsARun(BySweep(n), store, s, Place(tenant, keys[0]), now, process, landing(keys[0]), EMPTY_DRAIN);
      var steps := DrainSteps(BySweep(n), store, Place(tenant, keys[0]), now, process, landing(keys[0]), EMPTY_DRAIN);
      match DrainFrom(store, tenant, keys[0], now, process, landing(keys[0]), EMPTY_DRAIN)
      case DrainRaised(_) =>
      case Drained(after, _) =>
        var mid := Run(s, steps);
        RunThen(s, steps, KeySteps(n, after, tenant, keys[1..], now, process, landing), mid);
        DrainsAreARun(n, after, mid, tenant, keys[1..], now, process, landing);
    }
  }

  lemma DoneIsARun(n: nat, store: Store, s: State)
    requires Agree(store, s) && Enabled(s, SweepDone(n))
    ensures var e := Run(s, [SweepDone(n)]);
            Agree(store, e) && n !in e.sweepers && e.swept == s.swept + s.sweepers[n].targets
  {
    RunFirst(s, SweepDone(n), []);
  }

  function SweepSteps(
    n: nat, store: Store, tenant: string, cutoff: int, now: int,
    process: Reply -> Outcome, landing: string -> Landing): seq<Step>
  {
    var keys := SweepKeys(ListStuck(store.rows, tenant, cutoff));
    [SweepStart(n, tenant, cutoff, keys)] + KeySteps(n, store, tenant, keys, now, process, landing)
  }

  // A whole sweep of the registry is a run of the protocol: it leaves the same
  // buffer, and has swept the rows it found stuck exactly when no drain raised.
  lemma SweepIsARun(
    n: nat, store: Store, s: State, tenant: string, cutoff: int, now: int,
    process: Reply -> Outcome, landing: string -> Landing)
    requires Agree(store, s) && n !in s.sweepers
    ensures var keys := SweepKeys(ListStuck(store.rows, tenant, cutoff));
            var d := DrainAll(store, tenant, keys, now, process, landing);
            var e := Run(s, SweepSteps(n, store, tenant, cutoff, now, process, landing));
            && Agree(d.store, e) && n !in e.sweepers
            && e.swept == if d.drained == |keys| then s.swept + StuckIds(s, tenant, cutoff) else s.swept
  {
    hide DrainAll, KeySteps, StoreOk;
    var keys := SweepKeys(ListStuck(store.rows, tenant, cutoff));
    StuckAgree(store, s, tenant, cutoff);
    forall id | id in StuckIds(s, tenant, cutoff)
      ensures s.rows[id].conversation in keys
    {
      assert s.rows[id] in ListStuck(store.rows, tenant, cutoff);
    }
    var start := SweepStart(n, tenant, cutoff, keys);
    RunFirst(s, start, KeySteps(n, store, tenant, keys, now, process, landing));
    DrainsAreARun(n, store, Apply(s, start), tenant, keys, now, process, landing);
  }
}
