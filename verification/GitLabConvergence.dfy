// However often the GitLab seed is cut off, a run that gets through leaves
// each commit, branch and merge request exactly once.
module GitLabConvergence {
  import opened Common
  import opened BranchNames
  import opened CutOff
  import opened GitLabSeed

  // Every work has its issue's key, and no issue is worked on twice in one
  // repository. Work that goes straight to main asks for no merge request.
  ghost predicate PlanOk(works: seq<Work>) {
    && (forall a :: 0 <= a < |works| ==> WorkOk(works[a]))
    && (forall a, b :: 0 <= a < b < |works| && works[a].repo == works[b].repo ==> works[a].key != works[b].key)
  }

  predicate WorkOk(w: Work) {
    w.key.Some? && IsKey(w.key.value) && (w.toMain ==> w.mr.NoRequest?)
  }

  function Main(repo: string): Ref {
    Ref(repo, "main")
  }

  lemma OwnFilesApart(works: seq<Work>, a: nat, i: nat, b: nat, j: nat)
    requires PlanOk(works) && a < |works| && b < |works|
    requires works[a].repo == works[b].repo && OwnFile(works[a], i).path == OwnFile(works[b], j).path
    ensures a == b && i == j
  {
    PathsAreApart(works[a].key.value, i, works[b].key.value, j);
  }

  lemma OwnRefsApart(works: seq<Work>, a: nat, b: nat)
    requires PlanOk(works) && a < |works| && b < |works| && Own(works[a]) == Own(works[b])
    ensures a == b || (works[a].toMain && works[b].toMain)
  {
    var k, k' := works[a].key.value, works[b].key.value;
    BranchesAreApart(works[a].lowered, k, works[b].lowered, k');
    BranchesAreApart(works[b].lowered, k', works[a].lowered, k);
  }

  // ------------------------------------------------------------ invariant

  // A planned file is on its own branch once its commit landed, was committed
  // at most once, and is nowhere else before it is there.
  ghost predicate FileOk(remote: Remote, w: Work, i: nat)
    requires w.key.Some?
  {
    var own := OwnFile(w, i);
    && remote.commits[own] == (if own in remote.files then 1 else 0)
    && forall branch :: At(Ref(w.repo, branch), own.path) in remote.files ==> own in remote.files
  }

  ghost predicate RequestOk(remote: Remote, w: Work)
    requires w.key.Some?
  {
    && remote.requests[Own(w)] <= 1
    && (Own(w) in remote.merged ==> Own(w) in remote.requests)
  }

  ghost predicate Inv(remote: Remote, works: seq<Work>)
    requires PlanOk(works)
  {
    && (forall f :: f in remote.files ==> f.ref in remote.branches)
    && (forall a :: 0 <= a < |works| ==> Main(works[a].repo) in remote.branches)
    && (forall a, i: nat :: 0 <= a < |works| ==> FileOk(remote, works[a], i))
    && (forall a :: 0 <= a < |works| ==> RequestOk(remote, works[a]))
  }

  ghost predicate Grew(a: Remote, b: Remote) {
    && a.branches <= b.branches && a.files <= b.files && a.requests <= b.requests && a.merged <= b.merged
    && a.maintainers <= b.maintainers
  }

  // ------------------------------------------------------------ the writes

  lemma BranchedKeeps(remote: Remote, works: seq<Work>, a: nat)
    requires PlanOk(works) && Inv(remote, works) && a < |works| && Own(works[a]) !in remote.branches
    ensures Inv(Branched(remote, Own(works[a])), works) && Grew(remote, Branched(remote, Own(works[a])))
    ensures forall i: nat :: OwnFile(works[a], i) !in Branched(remote, Own(works[a])).files
  {
    var ref := Own(works[a]);
    var after := Branched(remote, ref);
    forall b, i: nat | 0 <= b < |works|
      ensures FileOk(after, works[b], i)
      ensures b == a ==> OwnFile(works[b], i) !in after.files
    {
      assert FileOk(remote, works[b], i);
      var own := OwnFile(works[b], i);
      assert own in after.files && own !in remote.files ==> At(Main(works[b].repo), own.path) in remote.files;
      forall branch | At(Ref(works[b].repo, branch), own.path) in after.files
        ensures own in after.files
      {
        if At(Ref(works[b].repo, branch), own.path) !in remote.files {
          assert At(Main(works[b].repo), own.path) in remote.files;
        }
      }
    }
    assert forall b :: 0 <= b < |works| ==> RequestOk(remote, works[b]) ==> RequestOk(after, works[b]);
  }

  lemma AddedKeeps(remote: Remote, works: seq<Work>, a: nat, i: nat)
    requires PlanOk(works) && Inv(remote, works) && a < |works|
    requires Own(works[a]) in remote.branches && OwnFile(works[a], i) !in remote.files
    ensures var own := OwnFile(works[a], i);
            var after := remote.(files := remote.files + {own}, commits := remote.commits + multiset{own});
            Inv(after, works) && Grew(remote, after)
  {
    var own := OwnFile(works[a], i);
    var after := remote.(files := remote.files + {own}, commits := remote.commits + multiset{own});
    forall b, j: nat | 0 <= b < |works|
      ensures FileOk(after, works[b], j)
    {
      assert FileOk(remote, works[b], j);
      if works[b].repo == works[a].repo && OwnFile(works[b], j).path == own.path {
        OwnFilesApart(works, a, i, b, j);
      }
    }
    assert forall b :: 0 <= b < |works| ==> RequestOk(remote, works[b]) ==> RequestOk(after, works[b]);
  }

  // A missing planned file can always be committed, and is then there.
  lemma CommittedKeeps(remote: Remote, works: seq<Work>, a: nat, i: nat)
    requires PlanOk(works) && Inv(remote, works) && a < |works| && OwnFile(works[a], i) !in remote.files
    ensures var after := Committed(remote, OwnFile(works[a], i));
            && after.Some? && Inv(after.value, works) && Grew(remote, after.value)
            && OwnFile(works[a], i) in after.value.files && Own(works[a]) in after.value.branches
  {
    var ref := Own(works[a]);
    if ref in remote.branches {
      AddedKeeps(remote, works, a, i);
    } else {
      BranchedKeeps(remote, works, a);
      AddedKeeps(Branched(remote, ref), works, a, i);
    }
  }

  lemma MergedKeeps(remote: Remote, works: seq<Work>, a: nat)
    requires PlanOk(works) && Inv(remote, works) && a < |works| && Own(works[a]) in remote.requests
    ensures Inv(Merged(remote, Own(works[a])), works) && Grew(remote, Merged(remote, Own(works[a])))
  {
    var ref := Own(works[a]);
    var after := Merged(remote, ref);
    forall b, i: nat | 0 <= b < |works|
      ensures FileOk(after, works[b], i)
    {
      assert FileOk(remote, works[b], i);
      var own := OwnFile(works[b], i);
      forall branch | At(Ref(works[b].repo, branch), own.path) in after.files
        ensures own in remote.files
      {
        if At(Ref(works[b].repo, branch), own.path) !in remote.files {
          assert At(Ref(works[b].repo, ref.branch), own.path) in remote.files;
        }
      }
      if own in after.files {
        assert At(Ref(works[b].repo, own.ref.branch), own.path) in after.files;
      }
    }
    forall b | 0 <= b < |works|
      ensures RequestOk(after, works[b])
    {
      assert RequestOk(remote, works[b]);
    }
  }

  // ------------------------------------------------------------ one run

  ghost predicate Pushed(remote: Remote, w: Work, from: nat)
    requires w.key.Some?
  {
    forall i :: from <= i <= |w.commits| ==> OwnFile(w, i) in remote.files
  }

  ghost predicate Requested(remote: Remote, w: Work)
    requires w.key.Some?
  {
    w.mr.Request? ==> Own(w) in remote.requests && (w.mr.merged ==> Own(w) in remote.merged)
  }

  ghost predicate Done(remote: Remote, w: Work)
    requires w.key.Some?
  {
    && Pushed(remote, w, 1) && Requested(remote, w)
    && (w.toMain ==> (w.repo, w.author) in remote.maintainers)
  }

  // What a stretch of a run keeps, finishes and leaves alone.
  ghost predicate Stretch(s: Session<Remote>, t: Session<Remote>, works: seq<Work>)
    requires PlanOk(works)
  {
    Inv(t.remote, works) && Grew(s.remote, t.remote) && (t.alive ==> s.alive)
  }

  lemma {:induction false} PushCommitsKeeps(s: Session<Remote>, works: seq<Work>, a: nat, index: nat)
    requires PlanOk(works) && Inv(s.remote, works) && a < |works| && index > 0
    ensures var t := PushCommits(s, works[a], index);
            && Stretch(s, t, works)
            && (t.alive ==> Pushed(t.remote, works[a], index))
            && (Pushed(s.remote, works[a], index) ==> t.remote == s.remote)
    decreases |works[a].commits| + 1 - index
  {
    var w := works[a];
    if s.alive && index <= |w.commits| {
      var file := OwnFile(w, index);
      var looked := Called(s);
      if looked.alive && file in looked.remote.files {
        PushCommitsKeeps(looked, works, a, index + 1);
        PushedBefore(PushCommits(looked, w, index + 1).remote, w, index);
      } else if looked.alive {
        var ready := Called(looked);
        var sent := if ready.alive then Called(ready) else ready;
        if sent.alive {
          CommittedKeeps(sent.remote, works, a, index);
          var next := sent.(remote := Committed(sent.remote, file).value);
          PushCommitsKeeps(next, works, a, index + 1);
          PushedBefore(PushCommits(next, w, index + 1).remote, w, index);
        }
      }
    }
  }

  lemma PushedBefore(remote: Remote, w: Work, index: nat)
    requires w.key.Some? && OwnFile(w, index) in remote.files
    ensures Pushed(remote, w, index + 1) ==> Pushed(remote, w, index)
  {
  }

  lemma EnsureRequestKeeps(s: Session<Remote>, works: seq<Work>, a: nat)
    requires PlanOk(works) && Inv(s.remote, works) && a < |works| && works[a].mr.Request?
    ensures var t := EnsureRequest(s, works[a]);
            && Stretch(s.(alive := true), t, works)
            && (t.alive ==> Requested(t.remote, works[a]))
            && (Requested(s.remote, works[a]) ==> t.remote == s.remote)
  {
    hide Inv, Own;
    var w, ref := works[a], Own(works[a]);
    var present := if ref in s.remote.requests then s.remote
                   else s.remote.(requests := s.remote.requests + multiset{ref});
    RequestKeeps(s.remote, works, a);
    MergedKeeps(present, works, a);
  }

  // Files and commits are as they were.
  lemma FilesStay(a: Remote, b: Remote, works: seq<Work>)
    requires PlanOk(works) && Inv(a, works) && b.files == a.files && b.commits == a.commits && b.branches == a.branches
    requires forall w :: 0 <= w < |works| ==> RequestOk(b, works[w])
    ensures Inv(b, works)
  {
    hide OwnFile, RequestOk;
    forall w, i: nat | 0 <= w < |works|
      ensures FileOk(b, works[w], i)
    {
      assert FileOk(a, works[w], i);
    }
  }

  lemma RequestKeeps(remote: Remote, works: seq<Work>, a: nat)
    requires PlanOk(works) && Inv(remote, works) && a < |works| && works[a].mr.Request?
    ensures Own(works[a]) !in remote.requests ==>
              var after := remote.(requests := remote.requests + multiset{Own(works[a])});
              Inv(after, works) && Grew(remote, after)
  {
    hide Branch, FileOk;
    var after := remote.(requests := remote.requests + multiset{Own(works[a])});
    if Own(works[a]) !in remote.requests {
      forall b | 0 <= b < |works|
        ensures RequestOk(after, works[b])
      {
        assert RequestOk(remote, works[b]);
        if Own(works[a]) == Own(works[b]) {
          OwnRefsApart(works, a, b);
        }
      }
      FilesStay(remote, after, works);
    }
  }

  lemma MaintainerKeeps(s: Session<Remote>, works: seq<Work>, a: nat)
    requires PlanOk(works) && Inv(s.remote, works) && a < |works|
    ensures var t := EnsureMaintainer(s, works[a]);
            && Stretch(s.(alive := true), t, works)
            && (t.alive ==> (works[a].repo, works[a].author) in t.remote.maintainers)
            && ((works[a].repo, works[a].author) in s.remote.maintainers ==> t.remote == s.remote)
  {
    hide Own, OwnFile, FileOk;
    var after := s.remote.(maintainers := s.remote.maintainers + {(works[a].repo, works[a].author)});
    forall b | 0 <= b < |works|
      ensures RequestOk(after, works[b])
    {
      assert RequestOk(s.remote, works[b]);
    }
    FilesStay(s.remote, after, works);
  }

  lemma PushOneKeeps(s: Session<Remote>, works: seq<Work>, a: nat)
    requires PlanOk(works) && Inv(s.remote, works) && a < |works| && s.alive
    ensures var t := PushOne(s, works[a]);
            && Stretch(s, t, works)
            && (t.alive ==> Done(t.remote, works[a]))
            && (Done(s.remote, works[a]) ==> t.remote == s.remote)
  {
    hide Inv, PushCommits, EnsureRequest, EnsureMaintainer, Pushed, Requested;
    var w := works[a];
    var granted := if w.toMain then EnsureMaintainer(s, w) else s;
    MaintainerKeeps(s, works, a);
    var pushed := PushCommits(granted, w, 1);
    PushCommitsKeeps(granted, works, a, 1);
    var t := PushOne(s, w);
    if pushed.alive && w.mr.Request? {
      EnsureRequestKeeps(pushed, works, a);
      StillPushed(pushed.remote, t.remote, w);
    }
    NothingRequested(t.remote, w);
  }

  lemma NothingRequested(remote: Remote, w: Work)
    requires w.key.Some?
    ensures w.mr.NoRequest? ==> Requested(remote, w)
  {
  }

  lemma StillPushed(a: Remote, b: Remote, w: Work)
    requires w.key.Some? && Grew(a, b)
    ensures Pushed(a, w, 1) ==> Pushed(b, w, 1)
    ensures Requested(a, w) ==> Requested(b, w)
    ensures Done(a, w) ==> Done(b, w)
  {
  }

  lemma {:induction false} PushAllKeeps(s: Session<Remote>, works: seq<Work>, n: nat)
    requires PlanOk(works) && Inv(s.remote, works) && n <= |works|
    ensures var t := PushAll(s, works[n..]);
            && Stretch(s, t, works)
            && (t.alive ==> forall a :: n <= a < |works| ==> Done(t.remote, works[a]))
            && ((forall a :: n <= a < |works| ==> Done(s.remote, works[a])) ==> t.remote == s.remote)
    decreases |works| - n
  {
    hide Inv, Done, PushOne;
    if s.alive && n < |works| {
      var mid := PushOne(s, works[n]);
      PushOneKeeps(s, works, n);
      assert works[n..][1..] == works[n + 1..];
      PushAllKeeps(mid, works, n + 1);
      StillPushed(mid.remote, PushAll(mid, works[n + 1..]).remote, works[n]);
    }
  }

  // ------------------------------------------------------------ many runs

  // Runs one after the other, each with as many calls as it gets.
  function Runs(remote: Remote, works: seq<Work>, cuts: seq<nat>): Remote
    decreases |cuts|
  {
    if cuts == [] then remote else Runs(Run(remote, works, cuts[0]).remote, works, cuts[1..])
  }

  lemma {:induction false} RunsKeep(remote: Remote, works: seq<Work>, cuts: seq<nat>)
    requires PlanOk(works) && Inv(remote, works)
    ensures Inv(Runs(remote, works, cuts), works)
    decreases |cuts|
  {
    hide Inv;
    if cuts != [] {
      RunKeeps(remote, works, cuts[0]);
      RunsKeep(Run(remote, works, cuts[0]).remote, works, cuts[1..]);
    }
  }

  lemma RunKeeps(remote: Remote, works: seq<Work>, calls: nat)
    requires PlanOk(works) && Inv(remote, works)
    ensures var t := Run(remote, works, calls);
            && Inv(t.remote, works)
            && (t.alive ==> forall a :: 0 <= a < |works| ==> Done(t.remote, works[a]))
            && ((forall a :: 0 <= a < |works| ==> Done(remote, works[a])) ==> t.remote == remote)
  {
    assert works[0..] == works;
    PushAllKeeps(Session(remote, calls, true), works, 0);
  }

  // Each message is committed once and there, on the work's own branch.
  ghost predicate CommittedInFull(remote: Remote, w: Work)
    requires w.key.Some?
  {
    forall i: nat :: 1 <= i <= |w.commits| ==> IsThere(remote, w, i)
  }

  ghost predicate IsThere(remote: Remote, w: Work, i: nat)
    requires w.key.Some?
  {
    remote.commits[OwnFile(w, i)] == 1 && OwnFile(w, i) in remote.files && Own(w) in remote.branches
  }

  ghost predicate RequestedInFull(remote: Remote, w: Work)
    requires w.key.Some?
  {
    w.mr.Request? ==> remote.requests[Own(w)] == 1 && (w.mr.merged ==> Own(w) in remote.merged)
  }

  // After any number of runs cut off after any call, one run that gets
  // through leaves exactly one commit per message, the branch it is on, and
  // one merge request where one is wanted; a further run changes nothing.
  lemma SeedConverges(remote: Remote, works: seq<Work>, cuts: seq<nat>, calls: nat)
    requires PlanOk(works) && Inv(remote, works)
    requires Run(Runs(remote, works, cuts), works, calls).alive
    ensures var end := Run(Runs(remote, works, cuts), works, calls).remote;
            && (forall a :: 0 <= a < |works| ==> CommittedInFull(end, works[a]) && RequestedInFull(end, works[a]))
            && (forall again :: Run(end, works, again).remote == end)
  {
    hide Inv, Done, Run, Runs, CommittedInFull, RequestedInFull;
    RunsKeep(remote, works, cuts);
    var before := Runs(remote, works, cuts);
    RunKeeps(before, works, calls);
    var end := Run(before, works, calls).remote;
    forall again
      ensures Run(end, works, again).remote == end
    {
      RunKeeps(end, works, again);
    }
    forall a | 0 <= a < |works|
      ensures CommittedInFull(end, works[a]) && RequestedInFull(end, works[a])
    {
      DoneOnce(end, works, a);
    }
  }

  lemma MessageIsThere(remote: Remote, works: seq<Work>, a: nat, i: nat)
    requires PlanOk(works) && Inv(remote, works) && a < |works| && Pushed(remote, works[a], 1)
    requires 1 <= i <= |works[a].commits|
    ensures IsThere(remote, works[a], i)
  {
    hide Branch, Path, RequestOk;
    var own := OwnFile(works[a], i);
    assert own in remote.files && own.ref in remote.branches;
    assert FileOk(remote, works[a], i);
  }

  lemma RequestIsThere(remote: Remote, works: seq<Work>, a: nat)
    requires PlanOk(works) && Inv(remote, works) && a < |works| && Requested(remote, works[a])
    ensures RequestedInFull(remote, works[a])
  {
    hide Own, FileOk;
    assert RequestOk(remote, works[a]);
  }

  lemma DoneOnce(remote: Remote, works: seq<Work>, a: nat)
    requires PlanOk(works) && Inv(remote, works) && a < |works| && Done(remote, works[a])
    ensures CommittedInFull(remote, works[a]) && RequestedInFull(remote, works[a])
  {
    hide Inv, IsThere, Pushed, Requested, RequestedInFull;
    var w := works[a];
    forall i: nat | 1 <= i <= |w.commits|
      ensures IsThere(remote, w, i)
    {
      MessageIsThere(remote, works, a, i);
    }
    RequestIsThere(remote, works, a);
  }

  // A repository with nothing but its main branch is a fair start.
  lemma FreshRemoteHolds(works: seq<Work>)
    requires PlanOk(works)
    ensures Inv(Remote(set w | w in works :: Main(w.repo), {}, multiset{}, multiset{}, {}, {}), works)
  {
  }

  // A plan with a work whose issue has no key never gets through, whatever the
  // calls: the script stops at it.
  lemma {:induction false} NoKeyNoEnd(s: Session<Remote>, works: seq<Work>)
    requires exists a :: 0 <= a < |works| && works[a].key.None?
    ensures !PushAll(s, works).alive
    decreases |works|
  {
    hide PushOne;
    var a :| 0 <= a < |works| && works[a].key.None?;
    if s.alive {
      if a == 0 {
        KeylessStops(s, works[0]);
        StoppedStays(PushOne(s, works[0]), works[1..]);
      } else {
        assert works[1..][a - 1] == works[a];
        NoKeyNoEnd(PushOne(s, works[0]), works[1..]);
      }
    }
  }

  lemma KeylessStops(s: Session<Remote>, w: Work)
    requires w.key.None?
    ensures !PushOne(s, w).alive && PushOne(s, w).remote == s.remote
  {
  }

  lemma StoppedStays(s: Session<Remote>, works: seq<Work>)
    requires !s.alive
    ensures !PushAll(s, works).alive
  {
  }

  // ------------------------------------------------------------ enough calls

  function Budget(works: seq<Work>): nat
    decreases |works|
  {
    if works == [] then 0 else 3 * |works[0].commits| + 6 + Budget(works[1..])
  }

  lemma {:induction false} PushCommitsFinishes(s: Session<Remote>, works: seq<Work>, a: nat, index: nat)
    requires PlanOk(works) && Inv(s.remote, works) && a < |works| && 0 < index <= |works[a].commits| + 1
    requires s.alive && s.calls >= 3 * (|works[a].commits| + 1 - index)
    ensures var t := PushCommits(s, works[a], index);
            t.alive && t.calls >= s.calls - 3 * (|works[a].commits| + 1 - index)
    decreases |works[a].commits| + 1 - index
  {
    hide Inv;
    if index <= |works[a].commits| {
      var file := OwnFile(works[a], index);
      var looked := Called(s);
      if file in looked.remote.files {
        PushCommitsFinishes(looked, works, a, index + 1);
      } else {
        CommittedKeeps(s.remote, works, a, index);
        var next := Called(Called(looked)).(remote := Committed(s.remote, file).value);
        PushCommitsFinishes(next, works, a, index + 1);
      }
    }
  }

  // With that many calls a run gets through, if every merge request wanted
  // has a commit to show.
  lemma {:induction false} EnoughCallsFinish(s: Session<Remote>, works: seq<Work>, n: nat)
    requires PlanOk(works) && Inv(s.remote, works) && n <= |works|
    requires forall a :: 0 <= a < |works| && works[a].mr.Request? ==> works[a].commits != []
    requires s.alive && s.calls >= Budget(works[n..])
    ensures PushAll(s, works[n..]).alive
    decreases |works| - n
  {
    if n < |works| {
      var w := works[n];
      assert works[n..][1..] == works[n + 1..] && works[n..][0] == w;
      var granted := if w.toMain then EnsureMaintainer(s, w) else s;
      MaintainerKeeps(s, works, n);
      PushCommitsFinishes(granted, works, n, 1);
      PushCommitsKeeps(granted, works, n, 1);
      var pushed := PushCommits(granted, w, 1);
      PushOneKeeps(s, works, n);
      RequestFinishes(pushed, works, n);
      EnoughCallsFinish(PushOne(s, w), works, n + 1);
    }
  }

  lemma RequestFinishes(s: Session<Remote>, works: seq<Work>, a: nat)
    requires PlanOk(works) && Inv(s.remote, works) && a < |works| && s.alive && s.calls >= 3
    requires works[a].mr.Request? ==> works[a].commits != [] && Pushed(s.remote, works[a], 1)
    ensures works[a].mr.Request? ==> EnsureRequest(s, works[a]).alive && EnsureRequest(s, works[a]).calls >= s.calls - 3
  {
    if works[a].mr.Request? {
      assert OwnFile(works[a], 1) in s.remote.files;
    }
  }
}
