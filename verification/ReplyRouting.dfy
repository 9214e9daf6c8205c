// Where inbound messages go -- to a cross-person request, to the status
// collector, or nowhere -- when passes over the same messages overlap: a pass
// looks a check-in up, hands its message on, and the collector records a reply,
// each in a step of its own, with others moving in between, closing check-ins
// and starting them again.
module ReplyRouting {
  import opened Common

  // What the other collaborators answer during one pass; they may answer
  // anything, and something else on every pass.
  datatype Answers = Answers(
    notified: Option<nat>,             // request whose notification this correlation names
    threaded: Option<nat>,             // request whose notification this thread is under
    resolved: Option<string>,          // check-in of the reply's local day
    open: Option<nat>,                 // the one open request to this person
    late: Option<string>)              // the person's newest check-in

  datatype Call =
    | Counterpart(request: nat)
    | Collector(checkin: string, allowReprocess: bool)

  datatype Status = Handled(call: Call) | Ignored | Duplicate

  // The request that claims the message, if one does.
  function Claim(thread: string, answers: Answers): Option<nat> {
    if answers.notified.Some? then answers.notified
    else if thread != "" && answers.threaded.Some? then answers.threaded
    else if answers.resolved.None? then answers.open
    else None
  }

  // replied: the check-ins whose replied_at is set when the pass looks.
  function Route(thread: string, answers: Answers, replied: set<string>, allowReprocess: bool): Status {
    var claim := Claim(thread, answers);
    var correlation := if answers.resolved.Some? then answers.resolved else answers.late;
    if claim.Some? then Handled(Counterpart(claim.value))
    else if correlation.None? then Ignored
    else if correlation.value in replied then Duplicate
    else Handled(Collector(correlation.value, allowReprocess))
  }

  // ------------------------------------------------------------ steps

  // Where a pass has got to.
  datatype Stage =
    | Routed(call: Call)               // looked, has not handed on
    | Given(checkin: string)           // the collector has the message, has not looked itself
    | Reading(checkin: string)         // it found the check-in open and reads the reply

  datatype Event =
    | Saw(pass: nat, checkin: string)                 // found open, to be handed on
    | Gave(pass: nat, checkin: string, late: bool)    // handed to the collector; late: it had its reply
    | Asked(pass: nat, request: nat)                  // handed to the counterpart handler
    | Closed(checkin: string)                         // replied_at set
    | Reopened(checkin: string)                       // replied_at cleared

  datatype State = State(replied: set<string>, passes: map<nat, Stage>, log: seq<Event>)

  datatype Step =
    | Look(pass: nat, thread: string, answers: Answers, allowReprocess: bool)
    | Hand(pass: nat)
    | Read(pass: nat)
    | Record(pass: nat)                // the collector writes the reply
    | Leave(pass: nat)                 // it asks back, ignores, or raises
    | Elsewhere(write: Write)          // someone else writes the check-in

  // A close-out or a console answer closes it; starting it again clears its reply.
  datatype Write = Close(checkin: string) | Restart(checkin: string)

  // UPDATE ... WHERE replied_at IS NULL
  function Recorded(s: State, c: string): State {
    if c in s.replied then s else s.(replied := s.replied + {c}, log := s.log + [Closed(c)])
  }

  function Restarted(s: State, c: string): State {
    if c in s.replied then s.(replied := s.replied - {c}, log := s.log + [Reopened(c)]) else s
  }

  function Written(s: State, w: Write): State {
    match w
    case Close(c) => Recorded(s, c)
    case Restart(c) => Restarted(s, c)
  }

  predicate Enabled(s: State, step: Step) {
    match step
    case Look(p, _, _, _) => p !in s.passes
    case Hand(p) => p in s.passes && s.passes[p].Routed?
    case Read(p) => p in s.passes && s.passes[p].Given?
    case Record(p) => p in s.passes && s.passes[p].Reading?
    case Leave(p) => p in s.passes
    case Elsewhere(_) => true
  }

  function Apply(s: State, step: Step): State
    requires Enabled(s, step)
  {
    match step
    case Look(p, thread, answers, allowReprocess) =>
      var status := Route(thread, answers, s.replied, allowReprocess);
      if !status.Handled? then s
      else
        s.(passes := s.passes[p := Routed(status.call)],
           log := if status.call.Collector? then s.log + [Saw(p, status.call.checkin)] else s.log)
    case Hand(p) =>
      (match s.passes[p].call
       case Counterpart(request) => s.(passes := s.passes - {p}, log := s.log + [Asked(p, request)])
       case Collector(c, _) => s.(passes := s.passes[p := Given(c)], log := s.log + [Gave(p, c, c in s.replied)]))
    case Read(p) =>
      var c := s.passes[p].checkin;
      if c in s.replied then s.(passes := s.passes - {p}) else s.(passes := s.passes[p := Reading(c)])
    case Record(p) => Recorded(s.(passes := s.passes - {p}), s.passes[p].checkin)
    case Leave(p) => s.(passes := s.passes - {p})
    case Elsewhere(w) => Written(s, w)
  }

  // A step that cannot be taken changes nothing.
  function Run(s: State, steps: seq<Step>): State
    decreases |steps|
  {
    if steps == [] then s
    else Run(if Enabled(s, steps[0]) then Apply(s, steps[0]) else s, steps[1..])
  }

  function Start(replied: set<string>): State {
    State(replied, map[], [])
  }

  lemma {:induction false} RunConcat(s: State, a: seq<Step>, b: seq<Step>)
    ensures Run(s, a + b) == Run(Run(s, a), b)
    decreases |a|
  {
    if a == [] {
      assert a + b == b;
    } else {
      assert (a + b)[1..] == a[1..] + b;
      RunConcat(if Enabled(s, a[0]) then Apply(s, a[0]) else s, a[1..], b);
    }
  }

  // ------------------------------------------------------------ one pass, as the registry makes it

  function Writes(writes: seq<Write>): seq<Step>
    decreases |writes|
  {
    if writes == [] then [] else [Elsewhere(writes[0])] + Writes(writes[1..])
  }

  // Whether a check-in has its reply after those writes.
  predicate RepliedThen(before: bool, writes: seq<Write>, c: string)
    decreases |writes|
  {
    if writes == [] then before
    else RepliedThen(if writes[0].checkin == c then writes[0].Close? else before, writes[1..], c)
  }

  // What others write while the pass waits for its hand-over, and while the
  // collector reads; records: whether the collector comes to write a reply.
  datatype Meanwhile = Meanwhile(between: seq<Write>, reading: seq<Write>, records: bool)

  function CollectorSteps(p: nat, closed: bool, m: Meanwhile): seq<Step> {
    [Read(p)] + if closed then [] else Writes(m.reading) + [if m.records then Record(p) else Leave(p)]
  }

  // The steps of one pass whose look came out as status.
  function PassSteps(p: nat, thread: string, answers: Answers, allowReprocess: bool, status: Status,
      m: Meanwhile): seq<Step> {
    [Look(p, thread, answers, allowReprocess)] +
      if !status.Handled? then []
      else
        Writes(m.between) + ([Hand(p)] +
          if status.call.Counterpart? then []
          else CollectorSteps(p, RepliedThen(false, m.between, status.call.checkin), m))
  }

  class Router {
    var replied: set<string>
    var log: seq<Event>

    constructor (replied: set<string>)
      ensures this.replied == replied && log == []
    {
      this.replied, log := replied, [];
    }

    ghost function Now(passes: map<nat, Stage>): State
      reads this
    {
      State(replied, passes, log)
    }

    // record_checkin_reply_once
    method RecordReplyOnce(checkin: string, ghost passes: map<nat, Stage>) returns (recorded: bool)
      modifies this
      ensures recorded <==> checkin !in old(replied)
      ensures Now(passes) == Recorded(old(Now(passes)), checkin)
    {
      recorded := checkin !in replied;
      if recorded {
        replied, log := replied + {checkin}, log + [Closed(checkin)];
      }
    }

    // record_checkin: the row of a check-in that starts has no reply.
    method RecordCheckin(checkin: string, ghost passes: map<nat, Stage>)
      modifies this
      ensures Now(passes) == Restarted(old(Now(passes)), checkin)
    {
      if checkin in replied {
        replied, log := replied - {checkin}, log + [Reopened(checkin)];
      }
    }

    // Others move while this pass waits.
    method Await(writes: seq<Write>, ghost passes: map<nat, Stage>)
      modifies this
      ensures Now(passes) == Run(old(Now(passes)), Writes(writes))
    {
      for n := 0 to |writes|
        invariant Run(old(Now(passes)), Writes(writes)) == Run(Now(passes), Writes(writes[n..]))
      {
        assert writes[n..][0] == writes[n] && writes[n..][1..] == writes[n + 1..];
        match writes[n] {
          case Close(c) => var _ := RecordReplyOnce(c, passes);
          case Restart(c) => RecordCheckin(c, passes);
        }
      }
    }

    method HandleReply(p: nat, checkin: string, m: Meanwhile) returns (recorded: bool)
      modifies this
      ensures Now(map[]) ==
                Run(old(Now(map[p := Given(checkin)])), CollectorSteps(p, checkin in old(replied), m))
      ensures recorded ==> checkin !in old(replied) && checkin in replied
    {
      hide Run, Writes;
      ghost var last := if m.records then Record(p) else Leave(p);
      ghost var reading := Now(map[p := Reading(checkin)]);
      if checkin in replied {
        RunFirst(Now(map[p := Given(checkin)]), Read(p), []);
        RunNothing(Now(map[]));
        assert CollectorSteps(p, true, m) == [Read(p)] + [];
        assert map[p := Given(checkin)] - {p} == map[];
        return false;
      }
      RunFirst(Now(map[p := Given(checkin)]), Read(p), Writes(m.reading) + [last]);
      assert map[p := Given(checkin)][p := Reading(checkin)] == map[p := Reading(checkin)];
      RunConcat(reading, Writes(m.reading), [last]);
      Await(m.reading, map[p := Reading(checkin)]);
      ghost var read := Now(map[p := Reading(checkin)]);
      assert [last] + [] == [last];
      RunFirst(read, last, []);
      RunNothing(Apply(read, last));
      assert map[p := Reading(checkin)] - {p} == map[];
      if !m.records {
        assert Apply(read, Leave(p)) == Now(map[]);
        return false;
      }
      recorded := RecordReplyOnce(checkin, map[]);
    }

    method ProcessInboundMessage(p: nat, thread: string, answers: Answers, allowReprocess: bool, m: Meanwhile)
      returns (status: Status)
      modifies this
      ensures status == Route(thread, answers, old(replied), allowReprocess)
      ensures Now(map[]) ==
                Run(old(Now(map[])), PassSteps(p, thread, answers, allowReprocess, status, m))
    {
      hide Run, Writes, CollectorSteps;
      ghost var look := Look(p, thread, answers, allowReprocess);
      ghost var start := Now(map[]);
      if answers.notified.Some? {
        HandToCounterpart(p, thread, answers, allowReprocess, answers.notified.value, m);
        return Handled(Counterpart(answers.notified.value));
      }
      if thread != "" {
        if answers.threaded.Some? {
          HandToCounterpart(p, thread, answers, allowReprocess, answers.threaded.value, m);
          return Handled(Counterpart(answers.threaded.value));
        }
      }
      var correlation := answers.resolved;
      if correlation.None? {
        if answers.open.Some? {
          HandToCounterpart(p, thread, answers, allowReprocess, answers.open.value, m);
          return Handled(Counterpart(answers.open.value));
        }
        correlation := answers.late;
        if correlation.None? {
          RunFirst(start, look, []);
          RunNothing(start);
          return Ignored;
        }
      }
      var c := correlation.value;
      if c in replied {
        RunFirst(start, look, []);
        RunNothing(start);
        return Duplicate;
      }
      status := Handled(Collector(c, allowReprocess));
      ghost var routed, given := map[p := Routed(status.call)], map[p := Given(c)];
      ghost var steps := CollectorSteps(p, RepliedThen(false, m.between, c), m);
      RunFirst(start, look, Writes(m.between) + ([Hand(p)] + steps));
      log := log + [Saw(p, c)];
      RunConcat(Now(routed), Writes(m.between), [Hand(p)] + steps);
      WrittenThen(Now(routed), m.between, c);
      Await(m.between, routed);
      RunFirst(Now(routed), Hand(p), steps);
      log := log + [Gave(p, c, c in replied)];
      assert routed[p := Given(c)] == given;
      var _ := HandleReply(p, c, m);
    }

    method HandToCounterpart(
      p: nat, ghost thread: string, ghost answers: Answers, ghost allowReprocess: bool, request: nat, m: Meanwhile)
      requires Claim(thread, answers) == Some(request)
      modifies this
      ensures Now(map[]) ==
                Run(old(Now(map[])),
                    PassSteps(p, thread, answers, allowReprocess, Handled(Counterpart(request)), m))
    {
      hide Run, Writes;
      ghost var routed := map[p := Routed(Counterpart(request))];
      RunFirst(Now(map[]), Look(p, thread, answers, allowReprocess), Writes(m.between) + ([Hand(p)] + []));
      RunConcat(Now(routed), Writes(m.between), [Hand(p)] + []);
      Await(m.between, routed);
      RunFirst(Now(routed), Hand(p), []);
      RunNothing(Apply(Now(routed), Hand(p)));
      assert routed - {p} == map[];
      log := log + [Asked(p, request)];
    }
  }

  lemma RunFirst(s: State, step: Step, rest: seq<Step>)
    requires Enabled(s, step)
    ensures Run(s, [step] + rest) == Run(Apply(s, step), rest)
  {
    assert ([step] + rest)[1..] == rest;
  }

  lemma RunNothing(s: State)
    ensures Run(s, []) == s
  {
  }

  lemma {:induction false} WrittenThen(s: State, writes: seq<Write>, c: string)
    ensures c in Run(s, Writes(writes)).replied <==> RepliedThen(c in s.replied, writes, c)
    decreases |writes|
  {
    if writes != [] {
      RunFirst(s, Elsewhere(writes[0]), Writes(writes[1..]));
      WrittenThen(Written(s, writes[0]), writes[1..], c);
    }
  }

  // ------------------------------------------------------------ all runs

  // Whether a check-in has its reply after those events.
  predicate RepliedBy(log: seq<Event>, first: set<string>, c: string)
    decreases |log|
  {
    if log == [] then c in first
    else if log[|log| - 1] == Closed(c) then true
    else if log[|log| - 1] == Reopened(c) then false
    else RepliedBy(log[..|log| - 1], first, c)
  }

  // What the i-th event says of its check-in was so when it came.
  ghost predicate EventOk(log: seq<Event>, first: set<string>, i: nat)
    requires i < |log|
  {
    match log[i]
    case Saw(_, c) => !RepliedBy(log[..i], first, c)
    case Gave(p, c, late) => Saw(p, c) in log[..i] && (late <==> RepliedBy(log[..i], first, c))
    case Asked(_, _) => true
    case Closed(c) => !RepliedBy(log[..i], first, c)
    case Reopened(c) => RepliedBy(log[..i], first, c)
  }

  ghost predicate LogOk(log: seq<Event>, first: set<string>) {
    forall i: nat :: i < |log| ==> EventOk(log, first, i)
  }

  ghost predicate PassesSaw(s: State) {
    forall p :: p in s.passes && s.passes[p].Routed? && s.passes[p].call.Collector? ==>
      Saw(p, s.passes[p].call.checkin) in s.log
  }

  ghost predicate Inv(s: State, first: set<string>) {
    && (forall c :: c in s.replied <==> RepliedBy(s.log, first, c))
    && LogOk(s.log, first) && PassesSaw(s)
  }

  lemma OneMoreEvent(log: seq<Event>, e: Event, first: set<string>)
    requires LogOk(log, first) && EventOk(log + [e], first, |log|)
    ensures LogOk(log + [e], first)
  {
    forall i: nat | i < |log|
      ensures EventOk(log + [e], first, i)
    {
      assert EventOk(log, first, i) && (log + [e])[..i] == log[..i];
    }
  }

  lemma EventKeeps(s: State, s': State, first: set<string>, e: Event)
    requires Inv(s, first) && s'.log == s.log + [e]
    requires s'.replied == if e.Closed? then s.replied + {e.checkin}
                           else if e.Reopened? then s.replied - {e.checkin} else s.replied
    requires e.Closed? || e.Saw? ==> e.checkin !in s.replied
    requires e.Reopened? ==> e.checkin in s.replied
    requires e.Gave? ==> Saw(e.pass, e.checkin) in s.log && (e.late <==> e.checkin in s.replied)
    requires PassesSaw(s')
    ensures Inv(s', first)
  {
    hide PassesSaw;
    assert s'.log[..|s.log|] == s.log;
    OneMoreEvent(s.log, e, first);
  }

  lemma SightsStay(s: State, step: Step)
    requires PassesSaw(s) && Enabled(s, step)
    ensures PassesSaw(Apply(s, step))
  {
    hide Route;
    var s' := Apply(s, step);
    assert s.log <= s'.log;
    assert forall e :: e in s.log ==> e in s'.log;
  }

  lemma StepKeeps(s: State, step: Step, first: set<string>)
    requires Inv(s, first) && Enabled(s, step)
    ensures Inv(Apply(s, step), first)
  {
    hide RepliedBy, LogOk;
    var s' := Apply(s, step);
    SightsStay(s, step);
    if s'.log != s.log {
      EventKeeps(s, s', first, s'.log[|s.log|]);
    }
  }

  lemma {:induction false} RunKeeps(s: State, steps: seq<Step>, first: set<string>)
    requires Inv(s, first)
    ensures Inv(Run(s, steps), first)
    decreases |steps|
  {
    hide Inv, Apply, Enabled;
    if steps != [] {
      if Enabled(s, steps[0]) {
        StepKeeps(s, steps[0], first);
        RunKeeps(Apply(s, steps[0]), steps[1..], first);
      } else {
        RunKeeps(s, steps[1..], first);
      }
    }
  }

  lemma StartOk(first: set<string>)
    ensures Inv(Start(first), first)
  {
  }

  // ------------------------------------------------------------ what the log tells

  // Closed at k and not reopened from there to i.
  ghost predicate ClosedAt(log: seq<Event>, c: string, k: nat, i: nat) {
    k < i <= |log| && log[k] == Closed(c) && Reopened(c) !in log[k..i]
  }

  // The pass looked, then the check-in was closed, and it still is at the i-th event.
  ghost predicate ClosedSinceSeen(log: seq<Event>, p: nat, c: string, i: nat) {
    exists j: nat, k: nat :: j < k && ClosedAt(log, c, k, i) && log[j] == Saw(p, c)
  }

  lemma {:induction false} ClosedStays(log: seq<Event>, first: set<string>, c: string, k: nat, i: nat)
    requires ClosedAt(log, c, k, i)
    ensures RepliedBy(log[..i], first, c)
    decreases i
  {
    assert log[..i][..i - 1] == log[..i - 1] && log[..i][i - 1] == log[i - 1];
    if k < i - 1 {
      assert log[i - 1] == log[k..i][i - 1 - k];
      assert forall e :: e in log[k..i - 1] ==> e in log[k..i];
      ClosedStays(log, first, c, k, i - 1);
    }
  }

  // Open at j and replied at i: closed in between, and not reopened after.
  lemma {:induction false} ClosedBetween(log: seq<Event>, first: set<string>, c: string, j: nat, i: nat)
    returns (k: nat)
    requires j <= i <= |log| && !RepliedBy(log[..j], first, c) && RepliedBy(log[..i], first, c)
    ensures j <= k && ClosedAt(log, c, k, i)
    decreases i
  {
    assert i > j && log[..i][..i - 1] == log[..i - 1] && log[..i][i - 1] == log[i - 1];
    if log[i - 1] == Closed(c) {
      k := i - 1;
      assert log[k..i] == [Closed(c)];
    } else {
      k := ClosedBetween(log, first, c, j, i - 1);
      assert log[k..i] == log[k..i - 1] + [log[i - 1]];
    }
  }

  lemma HandedLateIff(log: seq<Event>, first: set<string>, i: nat)
    requires LogOk(log, first) && i < |log| && log[i].Gave?
    ensures log[i].late <==> ClosedSinceSeen(log, log[i].pass, log[i].checkin, i)
  {
    hide RepliedBy;
    var p, c := log[i].pass, log[i].checkin;
    assert EventOk(log, first, i);
    if log[i].late {
      var j: nat :| j < i && log[..i][j] == Saw(p, c);
      assert EventOk(log, first, j);
      var k := ClosedBetween(log, first, c, j, i);
      assert k != j;
    } else if ClosedSinceSeen(log, p, c, i) {
      var k: nat :| ClosedAt(log, c, k, i);
      ClosedStays(log, first, c, k, i);
      assert false;
    }
  }

  // In every run of any number of overlapping passes, restarts, close-outs and
  // console answers: a message is handed to the collector for a check-in that
  // has its reply exactly when that check-in was closed, and not reopened,
  // after the pass looked.
  lemma HandedOnLateIffClosedSinceSeen(first: set<string>, steps: seq<Step>)
    ensures var log := Run(Start(first), steps).log;
            forall i: nat :: i < |log| && log[i].Gave? ==>
              (log[i].late <==> ClosedSinceSeen(log, log[i].pass, log[i].checkin, i))
  {
    StartOk(first);
    RunKeeps(Start(first), steps, first);
    var log := Run(Start(first), steps).log;
    forall i: nat | i < |log| && log[i].Gave?
      ensures log[i].late <==> ClosedSinceSeen(log, log[i].pass, log[i].checkin, i)
    {
      HandedLateIff(log, first, i);
    }
  }

  lemma {:induction false} ClosingsBalance(log: seq<Event>, first: set<string>, c: string)
    requires LogOk(log, first)
    ensures multiset(log)[Closed(c)] + (if c in first then 1 else 0)
            == multiset(log)[Reopened(c)] + (if RepliedBy(log, first, c) then 1 else 0)
    decreases |log|
  {
    if log != [] {
      var n := |log| - 1;
      assert log == log[..n] + [log[n]];
      assert EventOk(log, first, n);
      forall i: nat | i < n
        ensures EventOk(log[..n], first, i)
      {
        assert EventOk(log, first, i) && log[..n][..i] == log[..i];
      }
      ClosingsBalance(log[..n], first, c);
    }
  }

  // However passes overlap, a check-in is closed once, and once more for each
  // time it is started again: the collector's write sees to that. It has its
  // reply exactly when closings and the reply it may have had to begin with
  // are one more than reopenings.
  lemma ClosedOncePerReopening(first: set<string>, steps: seq<Step>, c: string)
    ensures var s := Run(Start(first), steps);
            multiset(s.log)[Closed(c)] + (if c in first then 1 else 0)
            == multiset(s.log)[Reopened(c)] + (if c in s.replied then 1 else 0)
  {
    StartOk(first);
    RunKeeps(Start(first), steps, first);
    ClosingsBalance(Run(Start(first), steps).log, first, c);
  }

  lemma {:induction false} ReopenedBetween(log: seq<Event>, first: set<string>, c: string, i: nat, j: nat)
    requires i <= j <= |log| && RepliedBy(log[..i], first, c) && !RepliedBy(log[..j], first, c)
    ensures Reopened(c) in log[i..j]
    decreases j
  {
    assert j > i && log[..j][..j - 1] == log[..j - 1] && log[..j][j - 1] == log[j - 1];
    assert log[i..j] == log[i..j - 1] + [log[j - 1]];
    if log[j - 1] != Reopened(c) {
      ReopenedBetween(log, first, c, i, j - 1);
    }
  }

  // Between two closings of a check-in it was started again.
  lemma ClosedAgainOnlyIfReopened(first: set<string>, steps: seq<Step>, i: nat, j: nat)
    requires i < j < |Run(Start(first), steps).log|
    ensures var log := Run(Start(first), steps).log;
            log[i].Closed? && log[j] == log[i] ==> Reopened(log[i].checkin) in log[i..j]
  {
    StartOk(first);
    RunKeeps(Start(first), steps, first);
    var log := Run(Start(first), steps).log;
    if log[i].Closed? && log[j] == log[i] {
      assert EventOk(log, first, j);
      assert log[..i + 1][i] == Closed(log[i].checkin);
      ReopenedBetween(log, first, log[i].checkin, i + 1, j);
      assert log[i..j] == [log[i]] + log[i + 1..j];
    }
  }

  // Passes that hand on right after they look never hand on a check-in that
  // has its reply, whether or not they may reprocess.
  lemma RepliedCheckinsStayClosed(first: set<string>, steps: seq<Step>)
    requires var log := Run(Start(first), steps).log;
             forall i :: 0 < i < |log| && log[i].Gave? ==> log[i - 1] == Saw(log[i].pass, log[i].checkin)
    ensures var log := Run(Start(first), steps).log;
            forall i :: 0 <= i < |log| && log[i].Gave? ==> !log[i].late
  {
    StartOk(first);
    RunKeeps(Start(first), steps, first);
    var log := Run(Start(first), steps).log;
    forall i: nat | i < |log| && log[i].Gave?
      ensures !log[i].late
    {
      assert EventOk(log, first, i);
      assert i > 0 && EventOk(log, first, i - 1);
      assert log[..i][..i - 1] == log[..i - 1];
    }
  }

  // Two passes look at one open check-in; the first hands on and its reply is
  // written; the second hands on all the same. It is written once.
  lemma TwoPassesHandOnOneCheckin(c: string, answers: Answers)
    requires Claim("", answers) == None && answers.resolved == Some(c)
    ensures var e := Run(Start({}), [Look(0, "", answers, true), Look(1, "", answers, true),
                                     Hand(0), Read(0), Record(0), Hand(1), Read(1), Record(1)]);
            e.log == [Saw(0, c), Saw(1, c), Gave(0, c, false), Closed(c), Gave(1, c, true)]
  {
    hide Run;
    var call := Collector(c, true);
    var l0, l1 := Look(0, "", answers, true), Look(1, "", answers, true);
    var s2 := State({}, map[0 := Routed(call), 1 := Routed(call)], [Saw(0, c), Saw(1, c)]);
    var rest := [Hand(0), Read(0), Record(0), Hand(1), Read(1), Record(1)];
    RunFirst(Start({}), l0, [l1] + rest);
    RunFirst(Apply(Start({}), l0), l1, rest);
    BothLooked(s2, c);
    assert [l0] + ([l1] + rest) == [l0, l1, Hand(0), Read(0), Record(0), Hand(1), Read(1), Record(1)];
    assert Apply(Apply(Start({}), l0), l1) == s2;
  }

  lemma BothLooked(s: State, c: string)
    requires s.replied == {} && s.passes == map[0 := Routed(Collector(c, true)), 1 := Routed(Collector(c, true))]
    ensures Run(s, [Hand(0), Read(0), Record(0), Hand(1), Read(1), Record(1)]).log
            == s.log + [Gave(0, c, false), Closed(c), Gave(1, c, true)]
  {
    var s1 := Apply(s, Hand(0));
    var s3 := Apply(Apply(s1, Read(0)), Record(0));
    RunFirst(s, Hand(0), [Read(0), Record(0), Hand(1), Read(1), Record(1)]);
    RunFirst(s1, Read(0), [Record(0), Hand(1), Read(1), Record(1)]);
    RunFirst(Apply(s1, Read(0)), Record(0), [Hand(1), Read(1), Record(1)]);
    RunFirst(s3, Hand(1), [Read(1), Record(1)]);
    RunFirst(Apply(s3, Hand(1)), Read(1), [Record(1)]);
    assert Run(Apply(Apply(s3, Hand(1)), Read(1)), [Record(1)]) == Apply(Apply(s3, Hand(1)), Read(1));
  }
}
