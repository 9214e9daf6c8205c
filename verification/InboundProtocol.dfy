// Intake, arming, durable coalescing, sweeping and purging as interleaved
// steps. Every drain lists its rows, hands them on as one reply, and only then
// marks them; between any two steps of one actor all others may move, and
// intakes, workflow attempts and sweeps may die anywhere.
module InboundProtocol {
  import opened Common
  import opened Ordering
  import opened InboundStore

  const MAX_PASSES := 5   // passes of one drain
  const MAX_STEPS := 5    // drains of one workflow

  datatype Place = Place(tenant: string, conversation: string)

  datatype Phase = Running | Finished | Failed

  // A started coalesce workflow: its drain and pass, the rows it listed and has
  // not marked yet, and whether their reply has gone through.
  datatype Workflow = Workflow(step: nat, pass: nat, hold: Option<set<nat>>, sent: bool, phase: Phase)

  // A sweep under way: what it has still to drain, the pass it is in, the rows
  // it listed and has not marked yet, whether their reply has gone through, and
  // the rows it found stuck.
  datatype Sweeper = Sweeper(
    tenant: string, keys: seq<string>, pass: nat, hold: Option<set<nat>>, sent: bool, targets: set<nat>)

  // Who drains.
  datatype Actor = ByWorkflow(k: nat) | BySweep(n: nat)

  datatype State = State(
    rows: map<nat, Event>,            // inbound_chat_events by id
    nextId: nat,
    arming: map<nat, Option<nat>>,    // intakes past their insert, with the burst key once read
    engine: map<nat, Workflow>,       // every workflow ever started, by burst key
    sweepers: map<nat, Sweeper>,      // sweeps under way, of any tenant
    home: map<nat, Place>,            // history: where each id was inserted
    handed: multiset<nat>,            // history: rows whose reply went through, each time
    dropped: set<nat>,                // history: rows whose pass ended after its reply and before its mark
    orphans: set<nat>,                // history: rows left to the sweeper
    swept: set<nat>)                  // history: rows stuck when a finished sweep began

  const INIT := State(map[], 0, map[], map[], map[], map[], multiset{}, {}, {}, {})

  datatype Step =
    | Deliver(m: Incoming)
    | ReadKey(r: nat, k: nat)
    | NothingToArm(r: nat)
    | Start(r: nat)
    | Crash(r: nat)
    | List(k: nat)
    | Hand(k: nat)
    | Mark(k: nat, now: int)
    | Retry(k: nat)
    | Abandon(k: nat)
    | SweepStart(n: nat, tenant: string, cutoff: int, keys: seq<string>)
    | SweepList(n: nat)
    | SweepHand(n: nat)
    | SweepMark(n: nat, now: int)
    | SweepRaise(n: nat)
    | SweepDone(n: nat)
    | Purge(tenant: string, cutoff: int)

  // ------------------------------------------------------------ reading

  // Out of the buffer for good.
  predicate Gone(s: State, id: nat) {
    id !in s.rows || s.rows[id].processedAt.Some?
  }

  function BufferedIds(s: State, p: Place): set<nat> {
    set id | id in s.rows && Buffered(s.rows[id], p.tenant, p.conversation)
  }

  predicate IsBurstKey(s: State, p: Place, k: nat) {
    && k in BufferedIds(s, p)
    && forall x :: x in BufferedIds(s, p) ==> !Before(EventStamp(s.rows[x]), EventStamp(s.rows[k]))
  }

  function StuckIds(s: State, tenant: string, cutoff: int): set<nat> {
    set id | id in s.rows && IsStuck(s.rows[id], tenant, cutoff)
  }

  predicate InsertedBefore(s: State, m: Incoming) {
    exists id :: id in s.rows && SameDelivery(s.rows[id], NewEvent(0, m))
  }

  // Running, and sure to list r before it can finish.
  predicate Owes(w: Workflow, r: nat) {
    && w.phase.Running?
    && (w.hold.Some? && r !in w.hold.value ==> !LastPass(w))
  }

  predicate LastPass(w: Workflow) {
    w.step + 1 == MAX_STEPS && w.pass + 1 == MAX_PASSES
  }

  // ------------------------------------------------------------ moving

  predicate Enabled(s: State, step: Step) {
    match step
    case Deliver(m) => true
    case ReadKey(r, k) => r in s.arming && s.arming[r].None? && r in s.home && IsBurstKey(s, s.home[r], k)
    case NothingToArm(r) => r in s.arming && s.arming[r].None? && r in s.home && BufferedIds(s, s.home[r]) == {}
    case Start(r) => r in s.arming && s.arming[r].Some?
    case Crash(r) => r in s.arming
    case List(k) => k in s.engine && s.engine[k].phase.Running? && s.engine[k].hold.None? && k in s.home
    case Hand(k) => k in s.engine && s.engine[k].phase.Running? && s.engine[k].hold.Some? && !s.engine[k].sent
    case Mark(k, now) =>
      k in s.engine && s.engine[k].phase.Running? && s.engine[k].hold.Some? && s.engine[k].sent && k in s.home
    case Retry(k) => k in s.engine && s.engine[k].phase.Running?
    case Abandon(k) => k in s.engine && s.engine[k].phase.Running? && k in s.home
    case SweepStart(n, tenant, cutoff, keys) =>
      n !in s.sweepers && forall id :: id in StuckIds(s, tenant, cutoff) ==> s.rows[id].conversation in keys
    case SweepList(n) => n in s.sweepers && s.sweepers[n].keys != [] && s.sweepers[n].hold.None?
    case SweepHand(n) =>
      n in s.sweepers && s.sweepers[n].keys != [] && s.sweepers[n].hold.Some? && !s.sweepers[n].sent
    case SweepMark(n, now) =>
      n in s.sweepers && s.sweepers[n].keys != [] && s.sweepers[n].hold.Some? && s.sweepers[n].sent
    case SweepRaise(n) => n in s.sweepers
    case SweepDone(n) => n in s.sweepers && s.sweepers[n].keys == []
    case Purge(_, _) => true
  }

  function Apply(s: State, step: Step): State
    requires Enabled(s, step)
  {
    match step
    case Deliver(m) =>
      if InsertedBefore(s, m) then s
      else
        var id := s.nextId;
        s.(rows := s.rows[id := NewEvent(id, m)], nextId := id + 1, arming := s.arming[id := None],
           home := s.home[id := Place(m.tenant, ConversationKey(m))])
    case ReadKey(r, k) => s.(arming := s.arming[r := Some(k)])
    case NothingToArm(r) => s.(arming := s.arming - {r})
    case Start(r) =>
      // Starting a known id, running or not, runs nothing.
      var k := s.arming[r].value;
      s.(arming := s.arming - {r},
         engine := if k in s.engine then s.engine else s.engine[k := Workflow(0, 0, None, false, Running)],
         orphans := if k in s.engine && s.engine[k].phase.Failed? then s.orphans + {r} else s.orphans)
    case Crash(r) => s.(arming := s.arming - {r}, orphans := s.orphans + {r})
    case List(k) =>
      var ids := BufferedIds(s, s.home[k]);
      var w := s.engine[k];
      s.(engine := s.engine[k := if ids != {} then w.(hold := Some(ids), sent := false)
                                 else if w.pass == 0 then w.(phase := Finished)
                                 else NextDrain(w)])
    case Hand(k) =>
      s.(engine := s.engine[k := s.engine[k].(sent := true)], handed := s.handed + multiset(s.engine[k].hold.value))
    case Mark(k, now) =>
      var w := s.engine[k];
      var ids := w.hold.value;
      var marked := MarkIds(s.rows, s.home[k].tenant, ids, now);
      var w' := AfterMark(w);
      var s' := s.(rows := marked, engine := s.engine[k := w']);
      if w'.phase.Finished? then s'.(orphans := s.orphans + BufferedIds(s', s.home[k])) else s'
    case Retry(k) =>
      s.(engine := s.engine[k := s.engine[k].(hold := None, sent := false, pass := 0)],
         dropped := s.dropped + Unmarked(s.engine[k].hold, s.engine[k].sent))
    case Abandon(k) =>
      s.(engine := s.engine[k := s.engine[k].(hold := None, sent := false, phase := Failed)],
         dropped := s.dropped + Unmarked(s.engine[k].hold, s.engine[k].sent),
         orphans := s.orphans + BufferedIds(s, s.home[k]))
    case SweepStart(n, tenant, cutoff, keys) =>
      s.(sweepers := s.sweepers[n := Sweeper(tenant, keys, 0, None, false, StuckIds(s, tenant, cutoff))])
    case SweepList(n) =>
      var sw := s.sweepers[n];
      s.(sweepers := s.sweepers[n := AfterSweepList(sw, BufferedIds(s, Place(sw.tenant, sw.keys[0])))])
    case SweepHand(n) =>
      var sw := s.sweepers[n];
      s.(sweepers := s.sweepers[n := sw.(sent := true)], handed := s.handed + multiset(sw.hold.value))
    case SweepMark(n, now) =>
      var sw := s.sweepers[n];
      s.(rows := MarkIds(s.rows, sw.tenant, sw.hold.value, now),
         sweepers := s.sweepers[n := AfterSweepMark(sw)])
    case SweepRaise(n) =>
      s.(sweepers := s.sweepers - {n}, dropped := s.dropped + Unmarked(s.sweepers[n].hold, s.sweepers[n].sent))
    case SweepDone(n) => s.(sweepers := s.sweepers - {n}, swept := s.swept + s.sweepers[n].targets)
    case Purge(tenant, cutoff) =>
      s.(rows := map id | id in s.rows &&
                          !(s.rows[id].tenant == tenant && s.rows[id].processedAt.Some?
                            && s.rows[id].processedAt.value < cutoff) :: s.rows[id])
  }

  // What a pass that ends here has handed on and not marked.
  function Unmarked(hold: Option<set<nat>>, sent: bool): set<nat> {
    if hold.Some? && sent then hold.value else {}
  }

  function AfterSweepList(sw: Sweeper, ids: set<nat>): Sweeper
    requires sw.keys != []
  {
    if ids != {} then sw.(hold := Some(ids), sent := false) else sw.(keys := sw.keys[1..], pass := 0)
  }

  function AfterSweepMark(sw: Sweeper): Sweeper
    requires sw.keys != []
  {
    if sw.pass + 1 == MAX_PASSES then sw.(keys := sw.keys[1..], pass := 0, hold := None, sent := false)
    else sw.(pass := sw.pass + 1, hold := None, sent := false)
  }

  function MarkIds(rows: map<nat, Event>, tenant: string, ids: set<nat>, now: int): map<nat, Event> {
    map id | id in rows :: MarkRow(rows[id], tenant, ids, now)
  }

  function NextDrain(w: Workflow): Workflow {
    Workflow(w.step + 1, 0, None, false, if w.step + 1 == MAX_STEPS then Finished else Running)
  }

  function AfterMark(w: Workflow): Workflow {
    if w.pass + 1 == MAX_PASSES then NextDrain(w) else w.(pass := w.pass + 1, hold := None, sent := false)
  }

  // A step that cannot be taken changes nothing.
  function Run(s: State, steps: seq<Step>): State
    decreases |steps|
  {
    if steps == [] then s
    else Run(if Enabled(s, steps[0]) then Apply(s, steps[0]) else s, steps[1..])
  }

  // ------------------------------------------------------------ invariant

  ghost predicate StoredOnce(rows: map<nat, Event>) {
    forall a, b :: a in rows && b in rows && a != b ==> !SameDelivery(rows[a], rows[b])
  }

  // Identified for good, processed only after its reply went
  // through, and never more than once.
  ghost predicate RowsOk(s: State) {
    && (forall id :: id in s.rows ==>
          && s.rows[id].id == id && RowOk(s.rows[id], s.nextId)
          && id in s.home && s.home[id] == Place(s.rows[id].tenant, s.rows[id].conversation)
          && (s.rows[id].processedAt.Some? ==> id in s.handed))
    && (forall id :: id in s.home ==> id < s.nextId && (id in s.rows || id in s.handed))
  }

  ghost predicate WorkflowOk(s: State, k: nat)
    requires k in s.engine
  {
    var w := s.engine[k];
    && k in s.home
    && (w.phase.Running? ==> w.step < MAX_STEPS && w.pass < MAX_PASSES)
    && (w.hold.Some? ==> w.phase.Running? && (Gone(s, k) || k in w.hold.value))
    && (forall id :: id in Unmarked(w.hold, w.sent) ==> id in s.handed)
    && (w.step > 0 || w.phase.Finished? ==> Gone(s, k))
    && (w.pass > 0 ==> Gone(s, k))
  }

  ghost predicate ArmingOk(s: State, r: nat)
    requires r in s.arming
  {
    && r in s.home
    && match s.arming[r]
       case None => true
       case Some(k) =>
         && k in s.home && s.home[k] == s.home[r]
         && (Gone(s, r) || r in s.orphans || k !in s.engine
             || s.engine[k].phase.Failed? || Owes(s.engine[k], r))
  }

  ghost predicate OwedBy(s: State, k: nat, r: nat) {
    k in s.engine && k in s.home && r in s.home && s.home[k] == s.home[r] && Owes(s.engine[k], r)
  }

  // In the hands of its own intake, of a workflow, or of the sweeper.
  ghost predicate Covered(s: State, r: nat) {
    Gone(s, r) || r in s.arming || r in s.orphans || exists k :: OwedBy(s, k, r)
  }

  ghost predicate SweeperOk(s: State, sw: Sweeper) {
    && (forall id :: id in Unmarked(sw.hold, sw.sent) ==> id in s.handed)
    && forall t :: t in sw.targets ==> t < s.nextId && (Gone(s, t) || Ahead(s, sw, t))
  }

  // The sweep has still to list t, or holds it.
  ghost predicate Ahead(s: State, sw: Sweeper, t: nat) {
    && t in s.home && s.home[t].tenant == sw.tenant && s.home[t].conversation in sw.keys
    && (s.home[t].conversation == sw.keys[0] ==> sw.pass == 0 && (sw.hold.Some? ==> t in sw.hold.value))
  }

  ghost predicate SweepersOk(s: State) {
    forall n :: n in s.sweepers ==> SweeperOk(s, s.sweepers[n])
  }

  ghost predicate Inv(s: State) {
    && RowsOk(s) && StoredOnce(s.rows)
    && (forall k :: k in s.engine ==> WorkflowOk(s, k))
    && (forall r :: r in s.arming ==> ArmingOk(s, r))
    && (forall r :: r in s.rows ==> Covered(s, r))
    && SweepersOk(s)
    && (forall t :: t in s.swept ==> Gone(s, t) && t < s.nextId)
  }

  // ------------------------------------------------------------ preservation

  // Rows only get processed or purged, and history only grows: all that
  // intake, marking and purging can do to what others rely on.
  ghost predicate Advances(s: State, s': State) {
    && s.nextId <= s'.nextId
    && (forall id :: id in s.home ==> id in s'.home && s'.home[id] == s.home[id])
    && s.orphans <= s'.orphans
    && (forall id :: id in s.handed ==> id in s'.handed)
    && (forall id: nat :: Gone(s, id) && id < s.nextId ==> Gone(s', id))
  }

  // Nothing about the workflows themselves has moved.
  lemma OthersKeepWorkflows(s: State, s': State)
    requires Inv(s) && Advances(s, s') && s'.engine == s.engine
    ensures forall k :: k in s'.engine ==> WorkflowOk(s', k)
  {
    forall k | k in s'.engine
      ensures WorkflowOk(s', k)
    {
      assert WorkflowOk(s, k);
    }
  }

  lemma OthersKeepArming(s: State, s': State)
    requires Inv(s) && Advances(s, s') && s'.engine == s.engine
    ensures forall r :: r in s.arming && r in s'.arming && s'.arming[r] == s.arming[r] ==> ArmingOk(s', r)
  {
    forall r | r in s.arming && r in s'.arming && s'.arming[r] == s.arming[r]
      ensures ArmingOk(s', r)
    {
      assert ArmingOk(s, r);
    }
  }

  lemma OthersKeepCover(s: State, s': State, r: nat)
    requires Inv(s) && Advances(s, s') && s'.engine == s.engine
    requires r in s.rows && (r in s.arming ==> r in s'.arming)
    ensures Covered(s', r)
  {
    assert Covered(s, r);
    if !Gone(s, r) && r !in s.arming && r !in s.orphans {
      var k :| OwedBy(s, k, r);
      assert OwedBy(s', k, r);
    }
  }

  lemma SweepersStay(s: State, s': State)
    requires SweepersOk(s) && Advances(s, s') && s'.sweepers == s.sweepers
    ensures SweepersOk(s')
  {
    forall n | n in s'.sweepers
      ensures SweeperOk(s', s'.sweepers[n])
    {
      assert SweeperOk(s, s.sweepers[n]);
    }
  }

  // A step of sweep n leaves every other sweep as it was.
  lemma OtherSweepersStay(s: State, s': State, n: nat)
    requires SweepersOk(s) && Advances(s, s') && n in s'.sweepers && SweeperOk(s', s'.sweepers[n])
    requires forall x :: x in s'.sweepers && x != n ==> x in s.sweepers && s'.sweepers[x] == s.sweepers[x]
    ensures SweepersOk(s')
  {
    forall x | x in s'.sweepers && x != n
      ensures SweeperOk(s', s'.sweepers[x])
    {
      assert SweeperOk(s, s.sweepers[x]);
    }
  }

  lemma MarkingStoresNothing(rows: map<nat, Event>, tenant: string, ids: set<nat>, now: int)
    requires StoredOnce(rows)
    ensures StoredOnce(MarkIds(rows, tenant, ids, now))
  {
    var marked := MarkIds(rows, tenant, ids, now);
    forall a, b | a in marked && b in marked && a != b
      ensures !SameDelivery(marked[a], marked[b])
    {
      assert !SameDelivery(rows[a], rows[b]);
    }
  }

  lemma MarkingAdvances(s: State, tenant: string, ids: set<nat>, now: int, s': State)
    requires Inv(s)
    requires s'.rows == MarkIds(s.rows, tenant, ids, now) && s'.nextId == s.nextId && s'.home == s.home
    requires s'.handed == s.handed && (forall id :: id in ids ==> id in s.handed) && s.orphans <= s'.orphans
    ensures Advances(s, s') && RowsOk(s')
    ensures forall id :: id in ids && id in s.rows && s.rows[id].tenant == tenant ==> Gone(s', id)
  {
    hide StoredOnce, Covered, WorkflowOk, ArmingOk, SweepersOk;
  }

  lemma InsertStoresOnce(s: State, m: Incoming)
    requires StoredOnce(s.rows) && !InsertedBefore(s, m)
    ensures StoredOnce(s.rows[s.nextId := NewEvent(s.nextId, m)])
  {
  }

  lemma DeliverAdvances(s: State, m: Incoming)
    requires Inv(s)
    ensures var s' := Apply(s, Deliver(m));
            Advances(s, s') && RowsOk(s') && SweepersOk(s') && StoredOnce(s'.rows)
  {
    hide Covered, ArmingOk, WorkflowOk, SweepersOk;
    if !InsertedBefore(s, m) {
      InsertStoresOnce(s, m);
      hide StoredOnce;
      assert s.nextId !in s.home;
    }
    SweepersStay(s, Apply(s, Deliver(m)));
  }

  lemma DeliverKeeps(s: State, m: Incoming)
    requires Inv(s)
    ensures Inv(Apply(s, Deliver(m)))
  {
    hide StoredOnce, SweepersOk, RowsOk;
    var s' := Apply(s, Deliver(m));
    DeliverAdvances(s, m);
    if !InsertedBefore(s, m) {
      OthersKeepWorkflows(s, s');
      OthersKeepArming(s, s');
      forall r | r in s'.rows
        ensures Covered(s', r)
      {
        if r != s.nextId {
          OthersKeepCover(s, s', r);
        }
      }
    }
  }

  lemma ReadKeyArms(s: State, r: nat, k: nat)
    requires Inv(s) && Enabled(s, ReadKey(r, k))
    ensures ArmingOk(Apply(s, ReadKey(r, k)), r)
  {
    hide StoredOnce, SweepersOk, Covered;
    assert ArmingOk(s, r);
    assert k in s.engine ==> WorkflowOk(s, k);
  }

  lemma ReadKeyKeeps(s: State, r: nat, k: nat)
    requires Inv(s) && Enabled(s, ReadKey(r, k))
    ensures Inv(Apply(s, ReadKey(r, k)))
  {
    hide StoredOnce, SweepersOk, WorkflowOk, ArmingOk, Covered, IsBurstKey;
    var s' := Apply(s, ReadKey(r, k));
    SweepersStay(s, s');
    OthersKeepWorkflows(s, s');
    OthersKeepArming(s, s');
    ReadKeyArms(s, r, k);
    forall x | x in s'.rows
      ensures Covered(s', x)
    {
      OthersKeepCover(s, s', x);
    }
  }

  lemma NothingToArmKeeps(s: State, r: nat)
    requires Inv(s) && Enabled(s, NothingToArm(r))
    ensures Inv(Apply(s, NothingToArm(r)))
  {
    hide StoredOnce, SweepersOk, WorkflowOk;
    var s' := Apply(s, NothingToArm(r));
    SweepersStay(s, s');
    OthersKeepWorkflows(s, s');
    OthersKeepArming(s, s');
    forall x | x in s'.rows
      ensures Covered(s', x)
    {
      if x == r {
        assert x !in BufferedIds(s, s.home[r]);
      } else {
        OthersKeepCover(s, s', x);
      }
    }
  }

  lemma CrashKeeps(s: State, r: nat)
    requires Inv(s) && Enabled(s, Crash(r))
    ensures Inv(Apply(s, Crash(r)))
  {
    hide StoredOnce, SweepersOk, WorkflowOk;
    var s' := Apply(s, Crash(r));
    SweepersStay(s, s');
    OthersKeepWorkflows(s, s');
    OthersKeepArming(s, s');
    forall x | x in s'.rows
      ensures Covered(s', x)
    {
      if x != r {
        OthersKeepCover(s, s', x);
      }
    }
  }

  // A step of workflow k leaves every other workflow as it was.
  lemma OneWorkflowMoves(s: State, s': State, k: nat)
    requires Inv(s) && Advances(s, s') && k in s'.engine
    requires forall x :: x in s'.engine <==> x in s.engine || x == k
    requires forall x :: x in s.engine && x != k ==> s'.engine[x] == s.engine[x]
    ensures (forall x :: x in s'.engine && x != k ==> WorkflowOk(s', x))
    ensures forall r, x :: x != k && OwedBy(s, x, r) ==> OwedBy(s', x, r)
  {
    forall x | x in s'.engine && x != k
      ensures WorkflowOk(s', x)
    {
      assert WorkflowOk(s, x);
    }
  }

  // One started workflow has moved, and what it owed it still owes, or the
  // row is out of the buffer or known to be an orphan.
  ghost predicate OneSteps(s: State, s': State, k: nat) {
    && Advances(s, s') && k in s.engine && k in s'.engine
    && s'.engine == s.engine[k := s'.engine[k]]
    && s'.arming == s.arming && s'.sweepers == s.sweepers && s'.swept == s.swept
    && s'.rows.Keys == s.rows.Keys
    && (forall r :: OwedBy(s, k, r) ==> Gone(s', r) || Owes(s'.engine[k], r) || r in s'.orphans)
    && (s.engine[k].phase.Failed? ==> s'.engine[k].phase.Failed?)
  }

  lemma ArmingStays(s: State, s': State, k: nat, r: nat)
    requires Inv(s) && OneSteps(s, s', k) && r in s.arming
    ensures ArmingOk(s', r)
  {
    hide StoredOnce, Covered, SweepersOk;
    OneWorkflowMoves(s, s', k);
    assert ArmingOk(s, r);
    if s.arming[r] == Some(k) && !Gone(s, r) && r !in s.orphans && !s.engine[k].phase.Failed? {
      assert OwedBy(s, k, r);
    }
  }

  lemma CoverStays(s: State, s': State, k: nat, r: nat)
    requires Inv(s) && OneSteps(s, s', k) && r in s'.rows
    ensures Covered(s', r)
  {
    hide StoredOnce, ArmingOk, SweepersOk;
    OneWorkflowMoves(s, s', k);
    assert Covered(s, r);
    if !Gone(s, r) && r !in s.arming && r !in s.orphans {
      var x :| OwedBy(s, x, r);
      if x == k {
        assert Owes(s'.engine[k], r) ==> OwedBy(s', k, r);
      } else {
        assert OwedBy(s', x, r);
      }
    }
  }

  lemma WorkflowStepKeeps(s: State, s': State, k: nat)
    requires Inv(s) && OneSteps(s, s', k) && RowsOk(s') && StoredOnce(s'.rows) && WorkflowOk(s', k)
    ensures Inv(s')
  {
    SweepersStay(s, s');
    OneWorkflowMoves(s, s', k);
    forall r | r in s'.arming
      ensures ArmingOk(s', r)
    {
      ArmingStays(s, s', k, r);
    }
    forall r | r in s'.rows
      ensures Covered(s', r)
    {
      CoverStays(s, s', k, r);
    }
    hide StoredOnce, RowsOk, ArmingOk, Covered, WorkflowOk;
  }

  lemma StartCovers(s: State, r: nat, x: nat)
    requires Inv(s) && Enabled(s, Start(r)) && x in s.rows
    ensures Covered(Apply(s, Start(r)), x)
  {
    hide StoredOnce, RowsOk, SweepersOk, BufferedIds;
    var s', k := Apply(s, Start(r)), s.arming[r].value;
    assert ArmingOk(s, r) && Covered(s, x);
    assert k in s.engine ==> WorkflowOk(s, k);
    if !Gone(s, x) && x !in s'.arming && x !in s'.orphans {
      if x == r {
        assert OwedBy(s', k, r);
      } else {
        var y :| OwedBy(s, y, x);
        assert OwedBy(s', y, x);
      }
    }
  }

  lemma StartArms(s: State, r: nat, x: nat)
    requires Inv(s) && Enabled(s, Start(r)) && x in s.arming && x != r
    ensures ArmingOk(Apply(s, Start(r)), x)
  {
    hide StoredOnce, BufferedIds, Covered, SweepersOk, WorkflowOk;
    assert ArmingOk(s, x);
  }

  lemma StartKeeps(s: State, r: nat)
    requires Inv(s) && Enabled(s, Start(r))
    ensures Inv(Apply(s, Start(r)))
  {
    hide StoredOnce, BufferedIds, Covered, SweepersOk;
    var s' := Apply(s, Start(r));
    SweepersStay(s, s');
    var k := s.arming[r].value;
    assert ArmingOk(s, r);
    OneWorkflowMoves(s, s', k);
    assert k in s.engine ==> WorkflowOk(s, k);
    forall x | x in s'.arming
      ensures ArmingOk(s', x)
    {
      StartArms(s, r, x);
    }
    forall x | x in s'.rows
      ensures Covered(s', x)
    {
      StartCovers(s, r, x);
    }
  }

  lemma ListKeeps(s: State, k: nat)
    requires Inv(s) && Enabled(s, List(k))
    ensures Inv(Apply(s, List(k)))
  {
    hide StoredOnce, Covered, ArmingOk, SweepersOk;
    var s' := Apply(s, List(k));
    var ids := BufferedIds(s, s.home[k]);
    assert WorkflowOk(s, k);
    assert Gone(s, k) || k in ids;
    forall r | OwedBy(s, k, r)
      ensures Gone(s', r) || Owes(s'.engine[k], r)
    {
      if r in s.rows && !Gone(s, r) {
        assert r in ids;
      }
    }
    WorkflowStepKeeps(s, s', k);
  }

  lemma MarkOwes(s: State, k: nat, now: int, r: nat)
    requires Inv(s) && Enabled(s, Mark(k, now)) && OwedBy(s, k, r)
    ensures var s' := Apply(s, Mark(k, now));
            k in s'.engine && (Gone(s', r) || Owes(s'.engine[k], r))
  {
    hide StoredOnce, Covered, ArmingOk, SweepersOk;
    assert WorkflowOk(s, k);
    if r in s.engine[k].hold.value && r in s.rows {
      assert s.home[r] == Place(s.rows[r].tenant, s.rows[r].conversation);
    }
  }

  lemma MarkMovesOn(s: State, k: nat, now: int)
    requires Inv(s) && Enabled(s, Mark(k, now))
    ensures var s' := Apply(s, Mark(k, now));
            Advances(s, s') && RowsOk(s') && k in s'.engine && WorkflowOk(s', k)
  {
    hide StoredOnce, Covered, ArmingOk, SweepersOk, RowsOk, BufferedIds, MarkIds;
    assert WorkflowOk(s, k);
    var s' := Apply(s, Mark(k, now));
    MarkingAdvances(s, s.home[k].tenant, s.engine[k].hold.value, now, s');
    InvRows(s);
    BurstKeyIsMarked(s, s', k);
  }

  lemma BurstKeyIsMarked(s: State, s': State, k: nat)
    requires RowsOk(s) && Advances(s, s') && k in s.engine && k in s.home && s.engine[k].hold.Some?
    requires Gone(s, k) || k in s.engine[k].hold.value
    requires forall id :: id in s.engine[k].hold.value && id in s.rows && s.rows[id].tenant == s.home[k].tenant
               ==> Gone(s', id)
    ensures Gone(s', k)
  {
  }

  lemma InvRows(s: State)
    requires Inv(s)
    ensures RowsOk(s)
  {
  }

  lemma MarkKeeps(s: State, k: nat, now: int)
    requires Inv(s) && Enabled(s, Mark(k, now))
    ensures Inv(Apply(s, Mark(k, now)))
  {
    hide StoredOnce, Covered, ArmingOk, SweepersOk, Owes, WorkflowOk, RowsOk, Gone;
    var s' := Apply(s, Mark(k, now));
    MarkMovesOn(s, k, now);
    MarkingStoresNothing(s.rows, s.home[k].tenant, s.engine[k].hold.value, now);
    forall r | OwedBy(s, k, r)
      ensures Gone(s', r) || Owes(s'.engine[k], r)
    {
      MarkOwes(s, k, now, r);
    }
    WorkflowStepKeeps(s, s', k);
  }

  lemma InvWorkflow(s: State, k: nat)
    requires Inv(s) && k in s.engine
    ensures RowsOk(s) && StoredOnce(s.rows) && WorkflowOk(s, k)
  {
    hide RowsOk, StoredOnce, WorkflowOk, ArmingOk, Covered, SweepersOk;
  }

  lemma HandKeeps(s: State, k: nat)
    requires Inv(s) && Enabled(s, Hand(k))
    ensures Inv(Apply(s, Hand(k)))
  {
    hide Inv, StoredOnce;
    InvWorkflow(s, k);
    WorkflowStepKeeps(s, Apply(s, Hand(k)), k);
  }

  lemma RetryKeeps(s: State, k: nat)
    requires Inv(s) && Enabled(s, Retry(k))
    ensures Inv(Apply(s, Retry(k)))
  {
    hide Inv, StoredOnce;
    InvWorkflow(s, k);
    WorkflowStepKeeps(s, Apply(s, Retry(k)), k);
  }

  lemma AbandonKeeps(s: State, k: nat)
    requires Inv(s) && Enabled(s, Abandon(k))
    ensures Inv(Apply(s, Abandon(k)))
  {
    hide StoredOnce, Covered, ArmingOk, SweepersOk;
    var s' := Apply(s, Abandon(k));
    assert WorkflowOk(s, k);
    forall r | OwedBy(s, k, r)
      ensures Gone(s', r) || r in s'.orphans
    {
      if !Gone(s, r) {
        assert r in BufferedIds(s, s.home[k]);
      }
    }
    WorkflowStepKeeps(s, s', k);
  }

  // A step that leaves intakes and workflows alone.
  lemma SweepingKeeps(s: State, s': State)
    requires Inv(s) && Advances(s, s') && RowsOk(s') && StoredOnce(s'.rows) && SweepersOk(s')
    requires s'.arming == s.arming && s'.engine == s.engine
    requires forall id :: id in s'.rows ==> id in s.rows
    requires forall t :: t in s'.swept ==> Gone(s', t) && t < s'.nextId
    ensures Inv(s')
  {
    OthersKeepWorkflows(s, s');
    OthersKeepArming(s, s');
    forall r | r in s'.rows
      ensures Covered(s', r)
    {
      OthersKeepCover(s, s', r);
    }
  }

  lemma SweepListKeeps(s: State, n: nat)
    requires Inv(s) && Enabled(s, SweepList(n))
    ensures Inv(Apply(s, SweepList(n)))
  {
    hide StoredOnce, Covered, ArmingOk, WorkflowOk;
    var s' := Apply(s, SweepList(n));
    var sw, sw' := s.sweepers[n], s'.sweepers[n];
    assert SweeperOk(s, sw);
    forall t | t in sw.targets
      ensures t < s'.nextId && (Gone(s', t) || Ahead(s', sw', t))
    {
      if !Gone(s, t) && s.home[t].conversation == sw.keys[0] {
        assert t in BufferedIds(s, Place(sw.tenant, sw.keys[0]));
      }
    }
    OtherSweepersStay(s, s', n);
    SweepingKeeps(s, s');
  }

  lemma SweepHandKeeps(s: State, n: nat)
    requires Inv(s) && Enabled(s, SweepHand(n))
    ensures Inv(Apply(s, SweepHand(n)))
  {
    hide StoredOnce, Covered, ArmingOk, WorkflowOk;
    var s' := Apply(s, SweepHand(n));
    assert SweeperOk(s, s.sweepers[n]);
    OtherSweepersStay(s, s', n);
    SweepingKeeps(s, s');
  }

  lemma SweepMarkMovesOn(s: State, n: nat, now: int)
    requires Inv(s) && Enabled(s, SweepMark(n, now))
    ensures Advances(s, Apply(s, SweepMark(n, now))) && RowsOk(Apply(s, SweepMark(n, now)))
  {
    hide StoredOnce, Covered, ArmingOk, WorkflowOk;
    assert SweeperOk(s, s.sweepers[n]);
    MarkingAdvances(s, s.sweepers[n].tenant, s.sweepers[n].hold.value, now, Apply(s, SweepMark(n, now)));
  }

  lemma SweepMarkKeeps(s: State, n: nat, now: int)
    requires Inv(s) && Enabled(s, SweepMark(n, now))
    ensures Inv(Apply(s, SweepMark(n, now)))
  {
    hide StoredOnce, Covered, ArmingOk, WorkflowOk;
    var s' := Apply(s, SweepMark(n, now));
    var sw, sw' := s.sweepers[n], s'.sweepers[n];
    assert SweeperOk(s, sw);
    MarkingAdvances(s, sw.tenant, sw.hold.value, now, s');
    MarkingStoresNothing(s.rows, sw.tenant, sw.hold.value, now);
    forall t | t in sw.targets
      ensures t < s'.nextId && (Gone(s', t) || Ahead(s', sw', t))
    {
      if !Gone(s, t) && s.home[t].conversation == sw.keys[0] {
        assert t in sw.hold.value;
      }
    }
    OtherSweepersStay(s, s', n);
    SweepingKeeps(s, s');
  }

  lemma PurgeKeeps(s: State, tenant: string, cutoff: int)
    requires Inv(s)
    ensures Inv(Apply(s, Purge(tenant, cutoff)))
  {
    SweepersStay(s, Apply(s, Purge(tenant, cutoff)));
    SweepingKeeps(s, Apply(s, Purge(tenant, cutoff)));
  }

  lemma SweepStartKeeps(s: State, n: nat, tenant: string, cutoff: int, keys: seq<string>)
    requires Inv(s) && Enabled(s, SweepStart(n, tenant, cutoff, keys))
    ensures Inv(Apply(s, SweepStart(n, tenant, cutoff, keys)))
  {
    hide StoredOnce, Covered, ArmingOk, WorkflowOk;
    OtherSweepersStay(s, Apply(s, SweepStart(n, tenant, cutoff, keys)), n);
    SweepingKeeps(s, Apply(s, SweepStart(n, tenant, cutoff, keys)));
  }

  lemma SweepEndKeeps(s: State, step: Step)
    requires Inv(s) && Enabled(s, step) && (step.SweepRaise? || step.SweepDone?)
    ensures Inv(Apply(s, step))
  {
    hide StoredOnce, Covered, ArmingOk, WorkflowOk;
    var s' := Apply(s, step);
    assert SweeperOk(s, s.sweepers[step.n]);
    forall n | n in s'.sweepers
      ensures SweeperOk(s', s'.sweepers[n])
    {
      assert SweeperOk(s, s.sweepers[n]);
    }
    SweepingKeeps(s, s');
  }

  lemma StepKeeps(s: State, step: Step)
    requires Inv(s) && Enabled(s, step)
    ensures Inv(Apply(s, step))
  {
    match step
    case Deliver(m) => DeliverKeeps(s, m);
    case ReadKey(r, k) => ReadKeyKeeps(s, r, k);
    case NothingToArm(r) => NothingToArmKeeps(s, r);
    case Start(r) => StartKeeps(s, r);
    case Crash(r) => CrashKeeps(s, r);
    case List(k) => ListKeeps(s, k);
    case Hand(k) => HandKeeps(s, k);
    case Mark(k, now) => MarkKeeps(s, k, now);
    case Retry(k) => RetryKeeps(s, k);
    case Abandon(k) => AbandonKeeps(s, k);
    case SweepStart(n, tenant, cutoff, keys) => SweepStartKeeps(s, n, tenant, cutoff, keys);
    case SweepList(n) => SweepListKeeps(s, n);
    case SweepHand(n) => SweepHandKeeps(s, n);
    case SweepMark(n, now) => SweepMarkKeeps(s, n, now);
    case SweepRaise(n) => SweepEndKeeps(s, step);
    case SweepDone(n) => SweepEndKeeps(s, step);
    case Purge(tenant, cutoff) => PurgeKeeps(s, tenant, cutoff);
  }

  lemma StepAdvances(s: State, step: Step)
    requires Inv(s) && Enabled(s, step)
    ensures Advances(s, Apply(s, step))
  {
    hide Inv, Apply, Enabled;
    match step
    case Deliver(m) => DeliverAdvances(s, m);
    case Mark(k, now) => MarkMovesOn(s, k, now);
    case SweepMark(n, now) => SweepMarkMovesOn(s, n, now);
    case _ => OtherStepAdvances(s, step);
  }

  lemma OtherStepAdvances(s: State, step: Step)
    requires Enabled(s, step) && !step.Deliver? && !step.Mark? && !step.SweepMark?
    ensures Advances(s, Apply(s, step))
  {
    hide BufferedIds, StuckIds, NextDrain, MarkIds, IsBurstKey;
  }

  // Every run keeps the invariant: each delivery is stored at most once, a
  // processed row went through a reply, and a row still buffered is held by
  // its own intake, owed by a running workflow, or known to be an orphan.
  lemma {:induction false} EveryRunKeeps(s: State, steps: seq<Step>)
    requires Inv(s)
    ensures Inv(Run(s, steps))
    decreases |steps|
  {
    if steps != [] {
      if Enabled(s, steps[0]) {
        StepKeeps(s, steps[0]);
        EveryRunKeeps(Apply(s, steps[0]), steps[1..]);
      } else {
        EveryRunKeeps(s, steps[1..]);
      }
    }
  }

  // ------------------------------------------------------------ main results

  lemma InitHolds()
    ensures Inv(INIT)
  {
  }

  // In every run from the empty buffer: a delivery is stored once; what was
  // stored is either still there or has been through a reply; and what is
  // still buffered is covered.
  lemma NoInboundEventIsLost(steps: seq<Step>)
    ensures var s := Run(INIT, steps);
            && (forall a, b :: a in s.rows && b in s.rows && a != b ==> !SameDelivery(s.rows[a], s.rows[b]))
            && (forall id :: id in s.home ==> id in s.rows || id in s.handed)
            && (forall id :: id in s.rows && s.rows[id].processedAt.Some? ==>
                  id in s.handed && s.rows[id].attempts == 1)
            && (forall id :: id in s.rows && s.rows[id].processedAt.None? ==>
                  id in s.arming || id in s.orphans || exists k :: OwedBy(s, k, id))
  {
    InitHolds();
    EveryRunKeeps(INIT, steps);
    var s := Run(INIT, steps);
    forall id | id in s.rows && s.rows[id].processedAt.None?
      ensures id in s.arming || id in s.orphans || exists k :: OwedBy(s, k, id)
    {
      assert Covered(s, id);
    }
  }

  predicate IsFault(s: State, step: Step) {
    || step.Crash?
    || step.Abandon?
    || (step.Mark? && step.k in s.engine && LastPass(s.engine[step.k]))
  }

  ghost predicate FaultFree(s: State, steps: seq<Step>)
    decreases |steps|
  {
    steps != [] ==>
      && (Enabled(s, steps[0]) ==> !IsFault(s, steps[0]))
      && FaultFree(if Enabled(s, steps[0]) then Apply(s, steps[0]) else s, steps[1..])
  }

  ghost predicate NoFaultYet(s: State) {
    s.orphans == {} && forall k :: k in s.engine ==> !s.engine[k].phase.Failed?
  }

  lemma SoundStepOrphansNothing(s: State, step: Step)
    requires Inv(s) && Enabled(s, step) && NoFaultYet(s) && !IsFault(s, step)
    ensures NoFaultYet(Apply(s, step))
  {
    hide Inv, BufferedIds, StuckIds, MarkIds, NextDrain, InsertedBefore, IsBurstKey;
    match step
    case Mark(k, now) => SoundMarkOrphansNothing(s, k, now);
    case List(k) => SoundListOrphansNothing(s, k);
    case _ =>
  }

  lemma SoundMarkOrphansNothing(s: State, k: nat, now: int)
    requires Inv(s) && Enabled(s, Mark(k, now)) && NoFaultYet(s) && !LastPass(s.engine[k])
    ensures NoFaultYet(Apply(s, Mark(k, now)))
  {
    hide StoredOnce, Covered, ArmingOk, SweepersOk, RowsOk, MarkIds, BufferedIds;
    assert WorkflowOk(s, k);
  }

  lemma SoundListOrphansNothing(s: State, k: nat)
    requires Enabled(s, List(k)) && NoFaultYet(s)
    ensures NoFaultYet(Apply(s, List(k)))
  {
    hide BufferedIds;
  }

  // Orphans come only from an intake that dies before it arms, from a
  // workflow that gives up, and from one that has spent its last pass.
  lemma {:induction false} OnlyFaultsOrphan(s: State, steps: seq<Step>)
    requires Inv(s) && NoFaultYet(s)
    requires FaultFree(s, steps)
    ensures Run(s, steps).orphans == {}
    decreases |steps|
  {
    hide Inv, Apply, Enabled, IsFault;
    if steps != [] {
      var step := steps[0];
      if Enabled(s, step) {
        StepKeeps(s, step);
        SoundStepOrphansNothing(s, step);
        OnlyFaultsOrphan(Apply(s, step), steps[1..]);
      } else {
        OnlyFaultsOrphan(s, steps[1..]);
      }
    }
  }

  // A row a workflow owes stays owed until it is out of the buffer, whatever
  // everyone else does, unless that workflow is abandoned. So a workflow that
  // finishes has cleared all it ever owed.
  lemma {:induction false} OwedUntilProcessed(s: State, steps: seq<Step>, k: nat, r: nat)
    requires Inv(s) && OwedBy(s, k, r)
    requires Abandon(k) !in steps
    ensures var e := Run(s, steps);
            && (Gone(e, r) || OwedBy(e, k, r))
            && (k in e.engine && e.engine[k].phase.Finished? ==> Gone(e, r))
    decreases |steps|
  {
    if steps != [] {
      var step := steps[0];
      if Enabled(s, step) {
        var s' := Apply(s, step);
        StepKeeps(s, step);
        OneStepOwed(s, step, k, r);
        if Gone(s', r) {
          GoneForGood(s', steps[1..], r);
        } else {
          OwedUntilProcessed(s', steps[1..], k, r);
        }
      } else {
        OwedUntilProcessed(s, steps[1..], k, r);
      }
    }
  }

  predicate MovesWorkflow(step: Step, k: nat) {
    (step.List? || step.Hand? || step.Mark? || step.Retry?) && step.k == k
  }

  lemma OneStepOwed(s: State, step: Step, k: nat, r: nat)
    requires Inv(s) && OwedBy(s, k, r) && Enabled(s, step) && step != Abandon(k)
    ensures Gone(Apply(s, step), r) || OwedBy(Apply(s, step), k, r)
  {
    hide Inv, Apply, Enabled;
    if MovesWorkflow(step, k) {
      OwnStepOwed(s, step, k, r);
    } else {
      OtherStepLeaves(s, step, k);
      StepAdvances(s, step);
    }
  }

  lemma OtherStepLeaves(s: State, step: Step, k: nat)
    requires Enabled(s, step) && k in s.engine && !MovesWorkflow(step, k) && step != Abandon(k)
    ensures k in Apply(s, step).engine && Apply(s, step).engine[k] == s.engine[k]
  {
    hide BufferedIds, StuckIds, MarkIds, IsBurstKey, InsertedBefore;
  }

  lemma OwnStepOwed(s: State, step: Step, k: nat, r: nat)
    requires Inv(s) && OwedBy(s, k, r) && Enabled(s, step) && MovesWorkflow(step, k)
    ensures Gone(Apply(s, step), r) || OwedBy(Apply(s, step), k, r)
  {
    hide Inv, MarkIds, BufferedIds;
    match step
    case List(_) => ListOwes(s, k, r);
    case Mark(_, now) => MarkOwes(s, k, now, r);
    case _ =>
  }

  lemma ListOwes(s: State, k: nat, r: nat)
    requires Inv(s) && OwedBy(s, k, r) && Enabled(s, List(k))
    ensures Gone(Apply(s, List(k)), r) || OwedBy(Apply(s, List(k)), k, r)
  {
    hide StoredOnce, Covered, ArmingOk, SweepersOk;
    assert WorkflowOk(s, k);
    assert r in s.rows && !Gone(s, r) ==> r in BufferedIds(s, s.home[k]);
  }

  lemma {:induction false} GoneForGood(s: State, steps: seq<Step>, r: nat)
    requires Inv(s) && Gone(s, r) && r < s.nextId
    ensures Gone(Run(s, steps), r) && r < Run(s, steps).nextId
    decreases |steps|
  {
    hide Inv, Apply, Enabled;
    if steps != [] {
      if Enabled(s, steps[0]) {
        StepKeeps(s, steps[0]);
        StepAdvances(s, steps[0]);
        GoneForGood(Apply(s, steps[0]), steps[1..], r);
      } else {
        GoneForGood(s, steps[1..], r);
      }
    }
  }

  // When an intake reads its burst key and arms it, the workflow of that key
  // takes on every buffered row of the conversation, orphans included --
  // unless it already failed, for the engine never runs an id twice.
  lemma ArmingCoversIffNotFailed(s: State, r: nat, k: nat)
    requires Inv(s) && Enabled(s, ReadKey(r, k))
    ensures var s' := Apply(Apply(s, ReadKey(r, k)), Start(r));
            (forall x :: x in BufferedIds(s', s.home[r]) ==> OwedBy(s', k, x))
            <==> !(k in s.engine && s.engine[k].phase.Failed?)
  {
    var mid := Apply(s, ReadKey(r, k));
    ReadKeyKeeps(s, r, k);
    StartKeeps(mid, r);
    var s' := Apply(mid, Start(r));
    assert k in s.engine ==> WorkflowOk(s, k);
    assert k in BufferedIds(s', s.home[r]);
    forall x | x in BufferedIds(s', s.home[r]) && !(k in s.engine && s.engine[k].phase.Failed?)
      ensures OwedBy(s', k, x)
    {
      assert x in s'.rows;
    }
  }

  lemma RunFirst(s: State, step: Step, rest: seq<Step>)
    requires Enabled(s, step)
    ensures Run(s, [step] + rest) == Run(Apply(s, step), rest)
  {
    assert ([step] + rest)[1..] == rest;
  }

  lemma {:induction false} RunConcat(s: State, a: seq<Step>, b: seq<Step>)
    ensures Run(s, a + b) == Run(Run(s, a), b)
    decreases |a|
  {
    if a == [] {
      assert a + b == b;
    } else {
      assert (a + b)[1..] == a[1..] + b;
      RunConcat(if Enabled(s, a[0]) then Apply(s, a[0]) else s, a[1..], b);
    }
  }

  // An intake that dies between its insert and its arming leaves its row to
  // the sweeper: the redelivery the provider sends is a duplicate and arms nothing.
  lemma RedeliveryDoesNotArm(m: Incoming, again: Incoming)
    requires m.tenant == again.tenant && m.provider == again.provider && ExtractEventId(m) == ExtractEventId(again)
    ensures var s := Run(INIT, [Deliver(m), Crash(0), Deliver(again)]);
            && s.rows == map[0 := NewEvent(0, m)] && !Gone(s, 0)
            && s.arming == map[] && s.engine == map[] && s.orphans == {0}
  {
    var s1 := Apply(INIT, Deliver(m));
    var s2 := Apply(s1, Crash(0));
    assert s2.rows == map[0 := NewEvent(0, m)] && 0 in s2.rows && InsertedBefore(s2, again);
    RunFirst(INIT, Deliver(m), [Crash(0), Deliver(again)]);
    RunFirst(s1, Crash(0), [Deliver(again)]);
    RunFirst(s2, Deliver(again), []);
  }

  // The first burst's workflow is armed and has listed its row.
  function OneListed(first: Incoming): State {
    State(map[0 := NewEvent(0, first)], 1, map[], map[0 := Workflow(0, 0, Some({0}), false, Running)],
          map[], map[0 := Place(first.tenant, ConversationKey(first))], multiset{}, {}, {}, {})
  }

  lemma FirstIsBurstKey(first: Incoming)
    ensures var p, s := Place(first.tenant, ConversationKey(first)), Apply(INIT, Deliver(first));
            BufferedIds(s, p) == {0} && IsBurstKey(s, p, 0)
  {
    BeforeTotal(EventStamp(NewEvent(0, first)), EventStamp(NewEvent(0, first)));
    var s := Apply(INIT, Deliver(first));
    assert s.rows == map[0 := NewEvent(0, first)];
  }

  lemma FirstBurstListed(first: Incoming)
    ensures Run(INIT, [Deliver(first), ReadKey(0, 0), Start(0), List(0)]) == OneListed(first)
  {
    hide IsBurstKey, InsertedBefore;
    FirstIsBurstKey(first);
    assert !InsertedBefore(INIT, first) by {
      NothingInsertedYet(first);
    }
    var s1 := Apply(INIT, Deliver(first));
    var s2 := Apply(s1, ReadKey(0, 0));
    var s3 := Apply(s2, Start(0));
    RunFirst(INIT, Deliver(first), [ReadKey(0, 0), Start(0), List(0)]);
    RunFirst(s1, ReadKey(0, 0), [Start(0), List(0)]);
    RunFirst(s2, Start(0), [List(0)]);
    assert Run(s3, [List(0)]) == Apply(s3, List(0));
  }

  lemma NothingInsertedYet(m: Incoming)
    ensures !InsertedBefore(INIT, m)
  {
  }

  // ... and gives up.
  function FailedBurst(first: Incoming): State {
    OneListed(first).(engine := map[0 := Workflow(0, 0, None, false, Failed)], orphans := {0})
  }

  lemma SecondKeepsBurstKey(first: Incoming, second: Incoming)
    requires first.tenant == second.tenant && first.thread == second.thread
    requires ExtractEventId(first) != ExtractEventId(second)
    requires first.receivedAt < second.receivedAt
    ensures var s := Apply(FailedBurst(first), Deliver(second));
            && !InsertedBefore(FailedBurst(first), second)
            && s.rows == map[0 := NewEvent(0, first), 1 := NewEvent(1, second)] && s.arming == map[1 := None]
            && IsBurstKey(s, Place(first.tenant, ConversationKey(first)), 0)
  {
    BeforeTotal(EventStamp(NewEvent(0, first)), EventStamp(NewEvent(0, first)));
    assert !InsertedBefore(FailedBurst(first), second);
    var s := Apply(FailedBurst(first), Deliver(second));
    assert s.rows == map[0 := NewEvent(0, first), 1 := NewEvent(1, second)];
  }

  lemma NextMessageOrphaned(first: Incoming, second: Incoming)
    requires first.tenant == second.tenant && first.thread == second.thread
    requires ExtractEventId(first) != ExtractEventId(second)
    requires first.receivedAt < second.receivedAt
    ensures var s := Run(FailedBurst(first), [Deliver(second), ReadKey(1, 0), Start(1)]);
            && s.rows == map[0 := NewEvent(0, first), 1 := NewEvent(1, second)]
            && s.engine == FailedBurst(first).engine && s.arming == map[] && s.orphans == {0, 1}
  {
    hide Run, IsBurstKey, InsertedBefore;
    SecondKeepsBurstKey(first, second);
    var s5 := FailedBurst(first);
    var s6 := Apply(s5, Deliver(second));
    var s7 := Apply(s6, ReadKey(1, 0));
    RunFirst(s5, Deliver(second), [ReadKey(1, 0), Start(1)]);
    RunFirst(s6, ReadKey(1, 0), [Start(1)]);
    RunFirst(s7, Start(1), []);
    assert [Deliver(second)] + [ReadKey(1, 0), Start(1)] == [Deliver(second), ReadKey(1, 0), Start(1)];
    assert [ReadKey(1, 0)] + [Start(1)] == [ReadKey(1, 0), Start(1)] && [Start(1)] + [] == [Start(1)];
    RunNothing(Apply(s7, Start(1)));
  }

  lemma RunNothing(s: State)
    ensures Run(s, []) == s
  {
  }

  // One reply fails for good; the next message of that conversation arms the
  // dead id and nobody but the sweeper will take either.
  lemma FailedBurstSwallowsTheNext(first: Incoming, second: Incoming)
    requires first.tenant == second.tenant && first.thread == second.thread
    requires ExtractEventId(first) != ExtractEventId(second)
    requires first.receivedAt < second.receivedAt
    ensures var s := Run(INIT, [Deliver(first), ReadKey(0, 0), Start(0), List(0)]
                               + ([Abandon(0)] + [Deliver(second), ReadKey(1, 0), Start(1)]));
            !Gone(s, 1) && s.arming == map[] && !exists k :: OwedBy(s, k, 1)
  {
    hide Apply;
    var tail := [Deliver(second), ReadKey(1, 0), Start(1)];
    FirstBurstListed(first);
    RunConcat(INIT, [Deliver(first), ReadKey(0, 0), Start(0), List(0)], [Abandon(0)] + tail);
    RunFirst(OneListed(first), Abandon(0), tail);
    GivesUp(first);
    NextMessageOrphaned(first, second);
  }

  lemma GivesUp(first: Incoming)
    ensures Apply(OneListed(first), Abandon(0)) == FailedBurst(first)
  {
    assert BufferedIds(OneListed(first), Place(first.tenant, ConversationKey(first))) == {0};
  }

  // Drains that read before they mark may overlap: here the workflow and a
  // sweep both hand on the one row. Processing is at least once, not once.
  lemma OverlappingDrainsHandOnTwice(m: Incoming, cutoff: int, now: int)
    requires m.receivedAt < cutoff
    ensures var sweep := SweepStart(0, m.tenant, cutoff, [ConversationKey(m)]);
            var s := Run(INIT, [Deliver(m), ReadKey(0, 0), Start(0), List(0)]
                               + [sweep, SweepList(0), Hand(0), Mark(0, now), SweepHand(0), SweepMark(0, now)]);
            s.handed == multiset{0, 0}
  {
    hide Apply;
    var sweep := SweepStart(0, m.tenant, cutoff, [ConversationKey(m)]);
    FirstBurstListed(m);
    RunConcat(INIT, [Deliver(m), ReadKey(0, 0), Start(0), List(0)],
              [sweep, SweepList(0), Hand(0), Mark(0, now), SweepHand(0), SweepMark(0, now)]);
    BothHandOn(m, cutoff, now);
  }

  lemma BothHandOn(m: Incoming, cutoff: int, now: int)
    requires m.receivedAt < cutoff
    ensures var sweep := SweepStart(0, m.tenant, cutoff, [ConversationKey(m)]);
            Run(OneListed(m), [sweep, SweepList(0), Hand(0), Mark(0, now), SweepHand(0), SweepMark(0, now)]).handed
            == multiset{0, 0}
  {
    var sweep := SweepStart(0, m.tenant, cutoff, [ConversationKey(m)]);
    var s4 := OneListed(m);
    var s5 := Apply(s4, sweep);
    assert StuckIds(s4, m.tenant, cutoff) == {0};
    assert s5.sweepers == map[0 := Sweeper(m.tenant, [ConversationKey(m)], 0, None, false, {0})];
    assert BufferedIds(s5, Place(m.tenant, ConversationKey(m))) == {0};
    var s6 := Apply(s5, SweepList(0));
    assert s6.sweepers == map[0 := Sweeper(m.tenant, [ConversationKey(m)], 0, Some({0}), false, {0})];
    RunFirst(s4, sweep, [SweepList(0), Hand(0), Mark(0, now), SweepHand(0), SweepMark(0, now)]);
    RunFirst(s5, SweepList(0), [Hand(0), Mark(0, now), SweepHand(0), SweepMark(0, now)]);
    WorkflowThenSweep(s6, now);
  }

  lemma WorkflowThenSweep(s: State, now: int)
    requires 0 in s.engine && s.engine[0] == Workflow(0, 0, Some({0}), false, Running) && 0 in s.home
    requires 0 in s.sweepers && s.sweepers[0].keys != []
    requires s.sweepers[0].hold == Some({0}) && !s.sweepers[0].sent
    requires s.handed == multiset{}
    ensures Run(s, [Hand(0), Mark(0, now), SweepHand(0), SweepMark(0, now)]).handed == multiset{0, 0}
  {
    hide MarkIds, BufferedIds;
    var s1 := Apply(s, Hand(0));
    var s2 := Apply(s1, Mark(0, now));
    RunFirst(s, Hand(0), [Mark(0, now), SweepHand(0), SweepMark(0, now)]);
    RunFirst(s1, Mark(0, now), [SweepHand(0), SweepMark(0, now)]);
    SweepHandsAndMarks(s2, now);
  }

  lemma SweepHandsAndMarks(s: State, now: int)
    requires 0 in s.sweepers && s.sweepers[0].keys != []
    requires s.sweepers[0].hold == Some({0}) && !s.sweepers[0].sent
    ensures Run(s, [SweepHand(0), SweepMark(0, now)]).handed == s.handed + multiset{0}
  {
    hide MarkIds, BufferedIds;
    RunFirst(s, SweepHand(0), [SweepMark(0, now)]);
    RunFirst(Apply(s, SweepHand(0)), SweepMark(0, now), []);
  }

  // One drain alone is enough: its reply goes through, the mark does not, and
  // the retried step lists the row again.
  lemma RetryAfterTheReplyHandsOnTwice(m: Incoming, now: int)
    ensures var s := Run(INIT, [Deliver(m), ReadKey(0, 0), Start(0), List(0)]
                               + [Hand(0), Retry(0), List(0), Hand(0), Mark(0, now)]);
            s.handed == multiset{0, 0}
  {
    hide Apply;
    FirstBurstListed(m);
    RunConcat(INIT, [Deliver(m), ReadKey(0, 0), Start(0), List(0)],
              [Hand(0), Retry(0), List(0), Hand(0), Mark(0, now)]);
    RetriedHandsOnAgain(m, now);
  }

  lemma RetriedHandsOnAgain(m: Incoming, now: int)
    ensures Run(OneListed(m), [Hand(0), Retry(0), List(0), Hand(0), Mark(0, now)]).handed == multiset{0, 0}
  {
    hide MarkIds;
    var s0 := OneListed(m);
    var s1 := Apply(s0, Hand(0));
    var s2 := Apply(s1, Retry(0));
    assert BufferedIds(s2, Place(m.tenant, ConversationKey(m))) == {0};
    var s3 := Apply(s2, List(0));
    var s4 := Apply(s3, Hand(0));
    RunFirst(s0, Hand(0), [Retry(0), List(0), Hand(0), Mark(0, now)]);
    RunFirst(s1, Retry(0), [List(0), Hand(0), Mark(0, now)]);
    RunFirst(s2, List(0), [Hand(0), Mark(0, now)]);
    RunFirst(s3, Hand(0), [Mark(0, now)]);
    RunFirst(s4, Mark(0, now), []);
  }

  // ------------------------------------------------------------ handing on once

  // What an actor's pass has handed on and not marked yet.
  function Sent(s: State, a: Actor): set<nat> {
    match a
    case ByWorkflow(k) => if k in s.engine then Unmarked(s.engine[k].hold, s.engine[k].sent) else {}
    case BySweep(n) => if n in s.sweepers then Unmarked(s.sweepers[n].hold, s.sweepers[n].sent) else {}
  }

  // Out of the buffer, between some pass's reply and its mark, or left there
  // by a pass that ended in between.
  ghost predicate Taken(s: State, id: nat) {
    || Gone(s, id)
    || id in s.dropped
    || exists a: Actor :: id in Sent(s, a)
  }

  // A pass hands on a row that was taken before.
  ghost predicate IsRepeat(s: State, step: Step)
    requires Enabled(s, step)
  {
    match step
    case Hand(k) => exists id :: id in s.engine[k].hold.value && Taken(s, id)
    case SweepHand(n) => exists id :: id in s.sweepers[n].hold.value && Taken(s, id)
    case _ => false
  }

  ghost predicate NoneRepeats(s: State, steps: seq<Step>)
    decreases |steps|
  {
    steps != [] ==>
      && (Enabled(s, steps[0]) ==> !IsRepeat(s, steps[0]))
      && NoneRepeats(if Enabled(s, steps[0]) then Apply(s, steps[0]) else s, steps[1..])
  }

  // Rows held are of the conversation their holder drains.
  ghost predicate WorkflowHolds(s: State, k: nat)
    requires k in s.engine
  {
    s.engine[k].hold.Some? ==>
      forall id :: id in s.engine[k].hold.value ==> k in s.home && id in s.home && s.home[id] == s.home[k]
  }

  ghost predicate SweeperHolds(s: State, n: nat)
    requires n in s.sweepers
  {
    var sw := s.sweepers[n];
    sw.hold.Some? ==>
      && sw.keys != []
      && forall id :: id in sw.hold.value ==> id in s.home && s.home[id] == Place(sw.tenant, sw.keys[0])
  }

  ghost predicate HoldsOk(s: State) {
    && (forall k :: k in s.engine ==> WorkflowHolds(s, k))
    && (forall n :: n in s.sweepers ==> SweeperHolds(s, n))
    && (forall id :: id in s.dropped ==> id in s.home)
  }

  ghost predicate HandedOnce(s: State) {
    forall id: nat :: s.handed[id] == if id in s.home && Taken(s, id) then 1 else 0
  }

  lemma BufferedAreHome(s: State, p: Place)
    requires RowsOk(s)
    ensures forall id :: id in BufferedIds(s, p) ==> id in s.home && s.home[id] == p
  {
  }

  lemma WorkflowHoldAfter(s: State, step: Step, k: nat)
    requires Enabled(s, step) && k in Apply(s, step).engine
    ensures var hold := Apply(s, step).engine[k].hold;
            || hold == None
            || (k in s.engine && hold == s.engine[k].hold)
            || (k in s.engine && k in s.home && hold == Some(BufferedIds(s, s.home[k])))
  {
    hide BufferedIds, MarkIds, StuckIds, InsertedBefore, IsBurstKey;
  }

  lemma WorkflowStillHolds(s: State, step: Step, k: nat)
    requires Inv(s) && HoldsOk(s) && Enabled(s, step) && k in Apply(s, step).engine
    ensures WorkflowHolds(Apply(s, step), k)
  {
    hide Inv, BufferedIds, SweeperHolds, Apply, Enabled, Gone;
    StepAdvances(s, step);
    WorkflowHoldAfter(s, step, k);
    InvRows(s);
    if k in s.engine {
      assert WorkflowHolds(s, k);
      if k in s.home {
        BufferedAreHome(s, s.home[k]);
      }
    }
  }

  lemma SweeperHoldAfter(s: State, step: Step, n: nat)
    requires Enabled(s, step) && n in Apply(s, step).sweepers
    ensures var sw' := Apply(s, step).sweepers[n];
            || sw'.hold == None
            || (n in s.sweepers && sw'.tenant == s.sweepers[n].tenant && sw'.keys == s.sweepers[n].keys
                && sw'.hold == s.sweepers[n].hold)
            || (n in s.sweepers && sw'.tenant == s.sweepers[n].tenant && sw'.keys == s.sweepers[n].keys != []
                && sw'.hold == Some(BufferedIds(s, Place(sw'.tenant, sw'.keys[0]))))
  {
    hide BufferedIds, MarkIds, StuckIds, InsertedBefore, IsBurstKey;
  }

  lemma SweeperStillHolds(s: State, step: Step, n: nat)
    requires Inv(s) && HoldsOk(s) && Enabled(s, step) && n in Apply(s, step).sweepers
    ensures SweeperHolds(Apply(s, step), n)
  {
    hide Inv, BufferedIds, WorkflowHolds, Apply, Enabled, Gone;
    StepAdvances(s, step);
    SweeperHoldAfter(s, step, n);
    InvRows(s);
    if n in s.sweepers {
      assert SweeperHolds(s, n);
      var sw := s.sweepers[n];
      if sw.keys != [] {
        BufferedAreHome(s, Place(sw.tenant, sw.keys[0]));
      }
    }
  }

  lemma StepHolds(s: State, step: Step)
    requires Inv(s) && HoldsOk(s) && Enabled(s, step)
    ensures HoldsOk(Apply(s, step))
  {
    hide Inv, WorkflowHolds, SweeperHolds, Apply, Enabled;
    forall k | k in Apply(s, step).engine
      ensures WorkflowHolds(Apply(s, step), k)
    {
      WorkflowStillHolds(s, step, k);
    }
    forall n | n in Apply(s, step).sweepers
      ensures SweeperHolds(Apply(s, step), n)
    {
      SweeperStillHolds(s, step, n);
    }
    DroppedStayHome(s, step);
  }

  lemma DroppedStayHome(s: State, step: Step)
    requires Inv(s) && HoldsOk(s) && Enabled(s, step)
    ensures forall id :: id in Apply(s, step).dropped ==> id in Apply(s, step).home
  {
    hide Inv, BufferedIds, MarkIds, StuckIds, IsBurstKey, InsertedBefore;
    match step
    case Retry(k) => assert WorkflowHolds(s, k);
    case Abandon(k) => assert WorkflowHolds(s, k);
    case SweepRaise(n) => assert SweeperHolds(s, n);
    case _ =>
  }

  // Whatever was taken before is taken still, and nothing else is.
  ghost predicate TakenStays(s: State, s': State) {
    forall id :: id in s.home ==> (Taken(s', id) <==> Taken(s, id))
  }

  // What one actor takes off its hands is out of the buffer or dropped.
  lemma OneActorMoves(s: State, s': State, a: Actor)
    requires forall b: Actor :: b != a ==> Sent(s', b) == Sent(s, b)
    requires forall id :: id in s.home ==>
               (Gone(s', id) || id in s'.dropped || id in Sent(s', a)
                <==> Gone(s, id) || id in s.dropped || id in Sent(s, a))
    ensures TakenStays(s, s')
  {
    hide Gone, Sent;
    forall id | id in s.home
      ensures Taken(s', id) <==> Taken(s, id)
    {
      if b: Actor :| b != a && id in Sent(s, b) {
        assert id in Sent(s', b);
      }
    }
  }

  predicate HandsOrEnds(step: Step) {
    || step.Hand? || step.Mark? || step.Retry? || step.Abandon?
    || step.SweepHand? || step.SweepMark? || step.SweepRaise?
  }

  lemma QuietStepKeepsSent(s: State, step: Step, a: Actor)
    requires HoldsOk(s) && Enabled(s, step) && !HandsOrEnds(step)
    ensures Sent(Apply(s, step), a) == Sent(s, a)
  {
    hide BufferedIds, StuckIds, MarkIds, InsertedBefore, IsBurstKey, WorkflowHolds;
    assert a.BySweep? && a.n in s.sweepers ==> SweeperHolds(s, a.n);
  }

  lemma QuietStepKeepsRows(s: State, step: Step)
    requires Inv(s) && Enabled(s, step) && !HandsOrEnds(step)
    ensures var s' := Apply(s, step);
            && s'.dropped == s.dropped && s'.handed == s.handed
            && (forall id :: id in s.home ==> id in s'.home && (Gone(s', id) <==> Gone(s, id)))
            && (forall id :: id in s'.home && id !in s.home ==> !Gone(s', id))
  {
    hide StoredOnce, Covered, ArmingOk, SweepersOk, WorkflowOk, BufferedIds, StuckIds, NextDrain, IsBurstKey;
    hide InsertedBefore;
  }

  lemma QuietStepHandsNothing(s: State, step: Step)
    requires Inv(s) && HoldsOk(s) && HandedOnce(s) && Enabled(s, step) && !HandsOrEnds(step)
    ensures HandedOnce(Apply(s, step))
  {
    hide Inv, HoldsOk, Gone, Sent, Apply, Enabled;
    var s' := Apply(s, step);
    QuietStepKeepsRows(s, step);
    forall a: Actor
      ensures Sent(s', a) == Sent(s, a)
    {
      QuietStepKeepsSent(s, step, a);
    }
    OneActorMoves(s, s', ByWorkflow(0));
    forall id | id in s'.home && id !in s.home
      ensures !Taken(s', id)
    {
      if Taken(s', id) {
        assert Taken(s, id);
        NewIsNotTaken(s, id);
      }
    }
    HandedNothing(s, s');
  }

  lemma NewIsNotTaken(s: State, id: nat)
    requires HoldsOk(s) && id !in s.home
    ensures id !in s.dropped && forall a: Actor :: id !in Sent(s, a)
  {
    forall a: Actor
      ensures id !in Sent(s, a)
    {
      match a
      case ByWorkflow(k) => assert k in s.engine ==> WorkflowHolds(s, k);
      case BySweep(n) => assert n in s.sweepers ==> SweeperHolds(s, n);
    }
  }

  lemma HandedNothing(s: State, s': State)
    requires HandedOnce(s) && TakenStays(s, s') && s'.handed == s.handed
    requires forall id :: id in s.home ==> id in s'.home
    requires forall id :: id in s'.home && id !in s.home ==> !Taken(s', id)
    ensures HandedOnce(s')
  {
    hide Taken;
  }

  // A pass that ends before its mark drops what it had handed on.
  lemma EndTakesNothing(s: State, step: Step)
    requires HandedOnce(s) && Enabled(s, step) && (step.Retry? || step.Abandon? || step.SweepRaise?)
    ensures HandedOnce(Apply(s, step))
  {
    hide HandedOnce, BufferedIds;
    var s' := Apply(s, step);
    OneActorMoves(s, s', if step.SweepRaise? then BySweep(step.n) else ByWorkflow(step.k));
    HandedNothing(s, s');
  }

  // A mark takes out of the buffer what its pass had handed on.
  lemma MarkedAreGone(s: State, s': State, p: Place, ids: set<nat>, now: int)
    requires RowsOk(s) && s'.rows == MarkIds(s.rows, p.tenant, ids, now)
    requires forall id :: id in ids ==> id in s.home && s.home[id] == p
    ensures forall id :: id in s.home ==> (Gone(s', id) <==> Gone(s, id) || id in ids)
  {
  }

  lemma MarkTakesNothing(s: State, k: nat, now: int)
    requires Inv(s) && HoldsOk(s) && HandedOnce(s) && Enabled(s, Mark(k, now))
    ensures HandedOnce(Apply(s, Mark(k, now)))
  {
    hide Inv, HandedOnce, BufferedIds, MarkIds, Gone, SweeperHolds;
    var s' := Apply(s, Mark(k, now));
    assert WorkflowHolds(s, k);
    InvRows(s);
    MarkedAreGone(s, s', s.home[k], s.engine[k].hold.value, now);
    OneActorMoves(s, s', ByWorkflow(k));
    HandedNothing(s, s');
  }

  lemma SweepMarkTakesNothing(s: State, n: nat, now: int)
    requires Inv(s) && HoldsOk(s) && HandedOnce(s) && Enabled(s, SweepMark(n, now))
    ensures HandedOnce(Apply(s, SweepMark(n, now)))
  {
    hide Inv, HandedOnce, BufferedIds, MarkIds, Gone, WorkflowHolds;
    var s' := Apply(s, SweepMark(n, now));
    var sw := s.sweepers[n];
    assert SweeperHolds(s, n);
    InvRows(s);
    MarkedAreGone(s, s', Place(sw.tenant, sw.keys[0]), sw.hold.value, now);
    OneActorMoves(s, s', BySweep(n));
    HandedNothing(s, s');
  }

  // Handing on rows nobody has taken counts each once.
  lemma FreshHandsOnce(s: State, s': State, a: Actor, ids: set<nat>)
    requires HandedOnce(s) && s'.home == s.home && s'.rows == s.rows && s'.dropped == s.dropped
    requires Sent(s, a) == {} && Sent(s', a) == ids
    requires forall b: Actor :: b != a ==> Sent(s', b) == Sent(s, b)
    requires forall id :: id in ids ==> id in s.home && !Taken(s, id)
    requires s'.handed == s.handed + multiset(ids)
    ensures HandedOnce(s')
  {
    hide Sent;
    forall id: nat
      ensures s'.handed[id] == if id in s'.home && Taken(s', id) then 1 else 0
    {
      assert s'.handed[id] == s.handed[id] + if id in ids then 1 else 0;
      if id in ids {
        assert id in Sent(s', a);
      } else if b: Actor :| id in Sent(s, b) {
        assert id in Sent(s', b);
      }
    }
  }

  lemma FreshStepHandsOnce(s: State, step: Step)
    requires HoldsOk(s) && HandedOnce(s) && Enabled(s, step) && (step.Hand? || step.SweepHand?) && !IsRepeat(s, step)
    ensures HandedOnce(Apply(s, step))
  {
    hide HandedOnce, Taken;
    var s' := Apply(s, step);
    match step
    case Hand(k) =>
      assert WorkflowHolds(s, k);
      FreshHandsOnce(s, s', ByWorkflow(k), s.engine[k].hold.value);
    case SweepHand(n) =>
      assert SweeperHolds(s, n);
      FreshHandsOnce(s, s', BySweep(n), s.sweepers[n].hold.value);
  }

  lemma StepHandsOnce(s: State, step: Step)
    requires Inv(s) && HoldsOk(s) && HandedOnce(s) && Enabled(s, step) && !IsRepeat(s, step)
    ensures HandedOnce(Apply(s, step))
  {
    hide Inv, HoldsOk, HandedOnce, Apply, Enabled, IsRepeat;
    match step
    case Hand(_) => FreshStepHandsOnce(s, step);
    case SweepHand(_) => FreshStepHandsOnce(s, step);
    case Mark(k, now) => MarkTakesNothing(s, k, now);
    case SweepMark(n, now) => SweepMarkTakesNothing(s, n, now);
    case Retry(_) => EndTakesNothing(s, step);
    case Abandon(_) => EndTakesNothing(s, step);
    case SweepRaise(_) => EndTakesNothing(s, step);
    case _ => QuietStepHandsNothing(s, step);
  }

  lemma RepeatHandsTwice(s: State, step: Step)
    requires HoldsOk(s) && HandedOnce(s) && Enabled(s, step) && IsRepeat(s, step)
    ensures exists id: nat :: Apply(s, step).handed[id] > 1
  {
    hide Taken;
    var held := if step.Hand? then s.engine[step.k].hold.value else s.sweepers[step.n].hold.value;
    var id :| id in held && Taken(s, id);
    assert if step.Hand? then WorkflowHolds(s, step.k) else SweeperHolds(s, step.n);
    assert s.handed[id] == 1;
    assert Apply(s, step).handed == s.handed + multiset(held);
    assert Apply(s, step).handed[id] == 2;
  }

  lemma {:induction false} HandedGrows(s: State, steps: seq<Step>)
    ensures s.handed <= Run(s, steps).handed
    decreases |steps|
  {
    if steps != [] {
      HandedGrows(if Enabled(s, steps[0]) then Apply(s, steps[0]) else s, steps[1..]);
    }
  }

  // In any run each row is handed on at most once exactly when no pass ever
  // hands on a row that is out of the buffer, between another's reply and mark,
  // or left behind by a pass that ended in between.
  lemma {:induction false} HandedOnceFrom(s: State, steps: seq<Step>)
    requires Inv(s) && HoldsOk(s) && HandedOnce(s)
    ensures (forall id: nat :: Run(s, steps).handed[id] <= 1) <==> NoneRepeats(s, steps)
    decreases |steps|
  {
    hide Inv, HoldsOk, IsRepeat, Enabled, Apply, Gone;
    if steps != [] {
      var step := steps[0];
      if !Enabled(s, step) {
        HandedOnceFrom(s, steps[1..]);
        assert Run(s, steps) == Run(s, steps[1..]);
      } else if IsRepeat(s, step) {
        RepeatHandsTwice(s, step);
        HandedGrows(Apply(s, step), steps[1..]);
        var id: nat :| Apply(s, step).handed[id] > 1;
        assert Run(s, steps).handed[id] > 1;
      } else {
        StepKeeps(s, step);
        StepHolds(s, step);
        StepHandsOnce(s, step);
        HandedOnceFrom(Apply(s, step), steps[1..]);
        assert Run(s, steps) == Run(Apply(s, step), steps[1..]);
        assert NoneRepeats(s, steps) == NoneRepeats(Apply(s, step), steps[1..]);
      }
    }
  }

  lemma HandedOnceIffNoneRepeats(steps: seq<Step>)
    ensures (forall id: nat :: Run(INIT, steps).handed[id] <= 1) <==> NoneRepeats(INIT, steps)
  {
    InitHolds();
    HandedOnceFrom(INIT, steps);
  }

  // ------------------------------------------------------------ how long a row stays

  // A purge of the row's tenant, with the row processed before its cutoff.
  ghost predicate IsDue(s: State, step: Step, id: nat) {
    && step.Purge? && id in s.rows && s.rows[id].tenant == step.tenant
    && s.rows[id].processedAt.Some? && s.rows[id].processedAt.value < step.cutoff
  }

  ghost predicate NeverDue(s: State, steps: seq<Step>, id: nat)
    decreases |steps|
  {
    steps != [] ==>
      && !IsDue(s, steps[0], id)
      && NeverDue(if Enabled(s, steps[0]) then Apply(s, steps[0]) else s, steps[1..], id)
  }

  lemma MarkedRowGrows(rows: map<nat, Event>, tenant: string, ids: set<nat>, now: int, id: nat)
    requires id in rows
    ensures id in MarkIds(rows, tenant, ids, now) && RowGrows(rows[id], MarkIds(rows, tenant, ids, now)[id])
  {
  }

  // One step takes a row away exactly when it is due, and else at most marks it.
  lemma StepTakesOnlyTheDue(s: State, step: Step, id: nat)
    requires RowsOk(s) && Enabled(s, step) && id in s.rows
    ensures id in Apply(s, step).rows <==> !IsDue(s, step, id)
    ensures id in Apply(s, step).rows ==> RowGrows(s.rows[id], Apply(s, step).rows[id])
  {
    hide RowsOk, Apply, Enabled, MarkIds, RowGrows;
    match step
    case Mark(k, now) => MarkTakesNone(s, k, now, id);
    case SweepMark(n, now) => SweepMarkTakesNone(s, n, now, id);
    case Purge(tenant, cutoff) => PurgeTakesTheDue(s, tenant, cutoff, id);
    case _ =>
      OtherStepTakesNone(s, step, id);
      SameRowGrows(s.rows[id]);
  }

  lemma SameRowGrows(e: Event)
    ensures RowGrows(e, e)
  {
  }

  lemma MarkTakesNone(s: State, k: nat, now: int, id: nat)
    requires Enabled(s, Mark(k, now)) && id in s.rows
    ensures var s' := Apply(s, Mark(k, now)); id in s'.rows && RowGrows(s.rows[id], s'.rows[id])
  {
    hide MarkIds, RowGrows, BufferedIds;
    MarkedRowGrows(s.rows, s.home[k].tenant, s.engine[k].hold.value, now, id);
  }

  lemma SweepMarkTakesNone(s: State, n: nat, now: int, id: nat)
    requires Enabled(s, SweepMark(n, now)) && id in s.rows
    ensures var s' := Apply(s, SweepMark(n, now)); id in s'.rows && RowGrows(s.rows[id], s'.rows[id])
  {
    hide MarkIds, RowGrows;
    MarkedRowGrows(s.rows, s.sweepers[n].tenant, s.sweepers[n].hold.value, now, id);
  }

  lemma PurgeTakesTheDue(s: State, tenant: string, cutoff: int, id: nat)
    requires id in s.rows
    ensures var s' := Apply(s, Purge(tenant, cutoff));
            && (id in s'.rows <==> !IsDue(s, Purge(tenant, cutoff), id))
            && (id in s'.rows ==> RowGrows(s.rows[id], s'.rows[id]))
  {
  }

  lemma OtherStepTakesNone(s: State, step: Step, id: nat)
    requires RowsOk(s) && Enabled(s, step) && id in s.rows && !step.Mark? && !step.SweepMark? && !step.Purge?
    ensures id in Apply(s, step).rows && Apply(s, step).rows[id] == s.rows[id]
  {
    hide BufferedIds, StuckIds, InsertedBefore, IsBurstKey, NextDrain;
    assert id < s.nextId;
  }

  // A row taken away never comes back under its id.
  lemma {:induction false} TakenAwayForGood(s: State, steps: seq<Step>, id: nat)
    requires Inv(s) && id !in s.rows && id < s.nextId
    ensures id !in Run(s, steps).rows
    decreases |steps|
  {
    hide Inv, Apply, Enabled;
    if steps != [] {
      if Enabled(s, steps[0]) {
        StepKeeps(s, steps[0]);
        StepRestoresNothing(s, steps[0], id);
        TakenAwayForGood(Apply(s, steps[0]), steps[1..], id);
      } else {
        TakenAwayForGood(s, steps[1..], id);
      }
    }
  }

  lemma StepRestoresNothing(s: State, step: Step, id: nat)
    requires Enabled(s, step) && id !in s.rows && id < s.nextId
    ensures id !in Apply(s, step).rows && id < Apply(s, step).nextId
  {
    hide BufferedIds, StuckIds, InsertedBefore, IsBurstKey, NextDrain;
  }

  // In every run a row stays exactly until a purge of its tenant finds it
  // processed before the cutoff; until then nothing but its mark changes.
  lemma {:induction false} RowStaysIffNeverDue(s: State, steps: seq<Step>, id: nat)
    requires Inv(s) && id in s.rows
    ensures id in Run(s, steps).rows <==> NeverDue(s, steps, id)
    ensures id in Run(s, steps).rows ==> RowGrows(s.rows[id], Run(s, steps).rows[id])
    decreases |steps|
  {
    hide Inv, Apply, Enabled, IsDue;
    if steps != [] {
      var step := steps[0];
      InvRows(s);
      if !Enabled(s, step) {
        DueIsEnabled(s, step, id);
        RowStaysIffNeverDue(s, steps[1..], id);
      } else {
        StepKeeps(s, step);
        StepTakesOnlyTheDue(s, step, id);
        if IsDue(s, step, id) {
          StepAdvances(s, step);
          TakenAwayForGood(Apply(s, step), steps[1..], id);
        } else {
          RowStaysIffNeverDue(Apply(s, step), steps[1..], id);
        }
      }
    }
  }

  lemma DueIsEnabled(s: State, step: Step, id: nat)
    ensures IsDue(s, step, id) ==> Enabled(s, step)
  {
  }

  // A row processed at t outlives every run whose purges of its tenant all
  // have a cutoff of at most t, and is as it was.
  lemma {:induction false} ProcessedRowStays(s: State, steps: seq<Step>, id: nat)
    requires Inv(s) && id in s.rows && s.rows[id].processedAt.Some?
    requires forall step :: step in steps && step.Purge? && step.tenant == s.rows[id].tenant ==>
               step.cutoff <= s.rows[id].processedAt.value
    ensures NeverDue(s, steps, id)
    ensures id in Run(s, steps).rows && Run(s, steps).rows[id] == s.rows[id]
    decreases |steps|
  {
    hide Inv, Apply, Enabled;
    RowStaysIffNeverDue(s, steps, id);
    if steps != [] {
      if Enabled(s, steps[0]) {
        StepKeeps(s, steps[0]);
        InvRows(s);
        StepTakesOnlyTheDue(s, steps[0], id);
        ProcessedRowStays(Apply(s, steps[0]), steps[1..], id);
      } else {
        ProcessedRowStays(s, steps[1..], id);
      }
    }
  }

  // Of the rows of one delivery only id can be there.
  ghost predicate OnlyRow(s: State, id: nat, m: Incoming) {
    forall x :: x in s.rows && SameDelivery(s.rows[x], NewEvent(0, m)) ==> x == id
  }

  lemma OtherDeliveriesKeepOnlyRow(s: State, step: Step, id: nat, m: Incoming)
    requires Enabled(s, step) && OnlyRow(s, id, m)
    requires step.Deliver? ==> !SameDelivery(NewEvent(0, step.m), NewEvent(0, m))
    ensures OnlyRow(Apply(s, step), id, m)
  {
    hide BufferedIds, StuckIds, InsertedBefore, IsBurstKey, NextDrain;
  }

  lemma {:induction false} OnlyRowStays(s: State, steps: seq<Step>, id: nat, m: Incoming)
    requires OnlyRow(s, id, m)
    requires forall d :: d in steps && d.Deliver? ==> !SameDelivery(NewEvent(0, d.m), NewEvent(0, m))
    ensures OnlyRow(Run(s, steps), id, m)
    decreases |steps|
  {
    hide Apply, Enabled, OnlyRow;
    if steps != [] {
      if Enabled(s, steps[0]) {
        OtherDeliveriesKeepOnlyRow(s, steps[0], id, m);
        OnlyRowStays(Apply(s, steps[0]), steps[1..], id, m);
      } else {
        OnlyRowStays(s, steps[1..], id, m);
      }
    }
  }

  // The next redelivery of a stored event changes nothing exactly when the
  // event's row has never been due: only then is it stored, and answered, again.
  lemma RedeliveryIgnoredIffNeverDue(s: State, steps: seq<Step>, id: nat, m: Incoming)
    requires Inv(s) && id in s.rows && SameDelivery(s.rows[id], NewEvent(0, m))
    requires forall d :: d in steps && d.Deliver? ==> !SameDelivery(NewEvent(0, d.m), NewEvent(0, m))
    ensures var e := Run(s, steps);
            && (Apply(e, Deliver(m)) == e <==> NeverDue(s, steps, id))
            && (NeverDue(s, steps, id) ==> id in e.rows && OnlyRow(e, id, m))
            && (!NeverDue(s, steps, id) ==> e.nextId in Apply(e, Deliver(m)).rows)
  {
    hide Run, NeverDue, RowsOk, ArmingOk, WorkflowOk, Covered, SweepersOk;
    var e := Run(s, steps);
    RowStaysIffNeverDue(s, steps, id);
    assert OnlyRow(s, id, m);
    OnlyRowStays(s, steps, id, m);
    assert id in e.rows ==> SameDelivery(e.rows[id], NewEvent(0, m));
    assert InsertedBefore(e, m) <==> id in e.rows;
  }

  // ------------------------------------------------------------ the sweep

  // From the start of a sweep to its end, no matter what moves in between.
  lemma {:induction false} TargetsStay(s: State, n: nat, steps: seq<Step>)
    requires n in s.sweepers && SweepRaise(n) !in steps && SweepDone(n) !in steps
    ensures n in Run(s, steps).sweepers && Run(s, steps).sweepers[n].targets == s.sweepers[n].targets
    decreases |steps|
  {
    if steps != [] {
      TargetsStay(if Enabled(s, steps[0]) then Apply(s, steps[0]) else s, n, steps[1..]);
    }
  }

  // A sweep none of whose drains raise has every row it found stuck out of
  // the buffer and through a reply by the time it is done, whatever intakes,
  // workflows, purges and other sweeps do meanwhile.
  lemma FinishedSweepLeavesNothingStuck(
    s: State, n: nat, tenant: string, cutoff: int, keys: seq<string>, between: seq<Step>)
    requires Inv(s) && Enabled(s, SweepStart(n, tenant, cutoff, keys))
    requires SweepRaise(n) !in between && SweepDone(n) !in between
    requires Enabled(Run(Apply(s, SweepStart(n, tenant, cutoff, keys)), between), SweepDone(n))
    ensures var e := Run(Apply(s, SweepStart(n, tenant, cutoff, keys)), between);
            forall id :: id in StuckIds(s, tenant, cutoff) ==> Gone(e, id) && id in e.handed
  {
    var s1 := Apply(s, SweepStart(n, tenant, cutoff, keys));
    var e := Run(s1, between);
    SweepStartKeeps(s, n, tenant, cutoff, keys);
    EveryRunKeeps(s1, between);
    TargetsStay(s1, n, between);
    HomesStay(s1, between);
    assert SweeperOk(e, e.sweepers[n]);
    forall id | id in StuckIds(s, tenant, cutoff)
      ensures Gone(e, id) && id in e.handed
    {
      assert id in e.sweepers[n].targets && id in s1.home;
      assert id in e.home;
    }
  }

  lemma {:induction false} HomesStay(s: State, steps: seq<Step>)
    requires Inv(s)
    ensures forall id :: id in s.home ==> id in Run(s, steps).home
    decreases |steps|
  {
    hide Inv, Apply, Enabled;
    if steps != [] {
      if Enabled(s, steps[0]) {
        StepKeeps(s, steps[0]);
        StepAdvances(s, steps[0]);
        HomesStay(Apply(s, steps[0]), steps[1..]);
      } else {
        HomesStay(s, steps[1..]);
      }
    }
  }
}
