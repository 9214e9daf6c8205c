// Whether a run of the GitLab seed from fresh repositories commits every
// message of its plan, when works may share an issue: exactly when no message's
// file is already on the branch it goes to, or on main when that branch is made.
module GitLabMessages {
  import opened Common
  import opened BranchNames
  import opened CutOff
  import opened GitLabSeed
  import opened GitLabConvergence

  ghost predicate WorksOk(works: seq<Work>) {
    forall a :: 0 <= a < |works| ==> WorkOk(works[a])
  }

  // Repositories as they are created: main branches and nothing on them.
  ghost predicate Fresh(remote: Remote) {
    && remote.files == {} && remote.commits == multiset{} && remote.requests == multiset{} && remote.merged == {}
    && forall ref :: ref in remote.branches ==> ref.branch == "main"
  }

  function Messages(works: seq<Work>, n: nat): nat
    requires n <= |works|
  {
    if n == 0 then 0 else Messages(works, n - 1) + |works[n - 1].commits|
  }

  // By the turn of work n, the files of work a are on main: it goes straight
  // there, or its branch has been merged since.
  ghost predicate ReachesMain(works: seq<Work>, a: nat, n: nat)
    requires WorksOk(works) && a <= n <= |works| && a < |works|
  {
    || works[a].toMain
    || exists c :: a <= c < n && works[c].mr == Request(true) && Own(works[c]) == Own(works[a])
  }

  // Work n would commit files that work a has already put where they are to go.
  ghost predicate Clash(works: seq<Work>, a: nat, n: nat)
    requires WorksOk(works) && a < n < |works|
  {
    && works[a].repo == works[n].repo && works[a].key == works[n].key
    && works[a].commits != [] && works[n].commits != []
    && (Own(works[a]) == Own(works[n]) || ReachesMain(works, a, n))
  }

  ghost predicate Apart(works: seq<Work>)
    requires WorksOk(works)
  {
    forall a, n :: 0 <= a < n < |works| ==> !Clash(works, a, n)
  }

  // With one key per repository nothing clashes.
  lemma DistinctKeysAreApart(works: seq<Work>)
    requires PlanOk(works)
    ensures WorksOk(works) && Apart(works)
  {
  }

  lemma OwnRefKeys(w: Work, v: Work)
    requires WorkOk(w) && WorkOk(v) && Own(w) == Own(v)
    ensures w.repo == v.repo && w.toMain == v.toMain
    ensures !w.toMain ==> w.key == v.key
  {
    BranchesAreApart(w.lowered, w.key.value, v.lowered, v.key.value);
    BranchesAreApart(v.lowered, v.key.value, w.lowered, w.key.value);
  }

  lemma OwnIsMainIff(w: Work)
    requires WorkOk(w)
    ensures Own(w).repo == w.repo
    ensures Own(w) == Main(w.repo) <==> w.toMain
    ensures Own(w).branch == "main" <==> w.toMain
  {
    BranchesAreApart(w.lowered, w.key.value, w.lowered, w.key.value);
  }

  // ------------------------------------------------------------ apart: every message lands

  // A file is message j of work a, sent by the i-th message of work n.
  ghost predicate Explains(works: seq<Work>, f: At, a: nat, j: nat, n: nat, i: nat)
    requires WorksOk(works) && n <= |works|
  {
    && a < |works| && a <= n && 1 <= j && (if a < n then j <= |works[a].commits| else j <= i)
    && f.path == OwnFile(works[a], j).path && f.ref.repo == works[a].repo
    && (f.ref == Own(works[a]) || ReachesMain(works, a, n))
  }

  ghost predicate Placed(remote: Remote, works: seq<Work>, n: nat, i: nat)
    requires WorksOk(works) && n <= |works|
  {
    forall f :: f in remote.files ==> exists a: nat, j: nat :: Explains(works, f, a, j, n, i)
  }

  // Everything up to the i-th message of work n has been committed.
  ghost predicate Landed(remote: Remote, works: seq<Work>, n: nat, i: nat)
    requires WorksOk(works) && n <= |works|
  {
    && Placed(remote, works, n, i)
    && |remote.commits| == Messages(works, n) + i
    && (n < |works| && i > 0 ==> Own(works[n]) in remote.branches)
  }

  // A file in the way of message i + 1 of work n makes some earlier work clash.
  lemma FileInTheWay(works: seq<Work>, n: nat, i: nat, ref: Ref, a: nat, j: nat)
    requires WorksOk(works) && n < |works| && i < |works[n].commits|
    requires ref == Own(works[n]) || ref == Main(works[n].repo)
    requires Explains(works, At(ref, OwnFile(works[n], i + 1).path), a, j, n, i)
    ensures a < n && Clash(works, a, n)
  {
    hide ReachesMain, Path, Branch;
    PathsAreApart(works[n].key.value, i + 1, works[a].key.value, j);
    OwnIsMainIff(works[n]);
    OwnIsMainIff(works[a]);
    ToMainReaches(works, a, n);
  }

  lemma ToMainReaches(works: seq<Work>, a: nat, n: nat)
    requires WorksOk(works) && a <= n <= |works| && a < |works|
    ensures works[a].toMain ==> ReachesMain(works, a, n)
  {
  }

  lemma NothingInTheWay(remote: Remote, works: seq<Work>, n: nat, i: nat, ref: Ref)
    requires WorksOk(works) && Apart(works) && n < |works| && i < |works[n].commits| && Placed(remote, works, n, i)
    requires ref == Own(works[n]) || ref == Main(works[n].repo)
    ensures At(ref, OwnFile(works[n], i + 1).path) !in remote.files
  {
    hide Clash, Explains, OwnFile, Own;
    var f := At(ref, OwnFile(works[n], i + 1).path);
    if f in remote.files {
      var a: nat, j: nat :| Explains(works, f, a, j, n, i);
      FileInTheWay(works, n, i, ref, a, j);
    }
  }

  lemma ExplainedLater(works: seq<Work>, f: At, a: nat, j: nat, n: nat, i: nat, n': nat, i': nat)
    requires WorksOk(works) && n <= n' <= |works| && Explains(works, f, a, j, n, i)
    requires if n == n' then i <= i' else n < |works| && i <= |works[n].commits|
    ensures Explains(works, f, a, j, n', i')
  {
  }

  lemma PlacedLater(remote: Remote, works: seq<Work>, n: nat, i: nat, n': nat, i': nat)
    requires WorksOk(works) && n <= n' <= |works| && Placed(remote, works, n, i)
    requires if n == n' then i <= i' else n < |works| && i <= |works[n].commits|
    ensures Placed(remote, works, n', i')
  {
    hide Explains;
    forall f | f in remote.files
      ensures exists a: nat, j: nat :: Explains(works, f, a, j, n', i')
    {
      var a: nat, j: nat :| Explains(works, f, a, j, n, i);
      ExplainedLater(works, f, a, j, n, i, n', i');
    }
  }

  // A copy of a file that main has is explained on every branch.
  lemma BranchedPlaced(remote: Remote, works: seq<Work>, n: nat, i: nat, ref: Ref)
    requires WorksOk(works) && n <= |works| && Placed(remote, works, n, i)
    ensures Placed(Branched(remote, ref), works, n, i)
  {
    var after := Branched(remote, ref);
    hide ReachesMain, Path, Branch;
    forall f | f in after.files
      ensures exists a: nat, j: nat :: Explains(works, f, a, j, n, i)
    {
      if f !in remote.files {
        var m := At(Main(ref.repo), f.path);
        var a: nat, j: nat :| Explains(works, m, a, j, n, i);
        OwnIsMainIff(works[a]);
        ToMainReaches(works, a, n);
        assert Explains(works, f, a, j, n, i);
      }
    }
  }

  lemma OwnFilePlaced(remote: Remote, works: seq<Work>, n: nat, i: nat)
    requires WorksOk(works) && n < |works| && i < |works[n].commits| && Placed(remote, works, n, i)
    ensures Placed(remote.(files := remote.files + {OwnFile(works[n], i + 1)}), works, n, i + 1)
  {
    hide Path, Branch;
    PlacedLater(remote, works, n, i, n, i + 1);
    assert Explains(works, OwnFile(works[n], i + 1), n, i + 1, n, i + 1);
  }

  lemma NextMessageLands(remote: Remote, works: seq<Work>, n: nat, i: nat)
    requires WorksOk(works) && Apart(works) && n < |works| && i < |works[n].commits| && Landed(remote, works, n, i)
    ensures var file := OwnFile(works[n], i + 1);
            && file !in remote.files && Committed(remote, file).Some?
            && Landed(Committed(remote, file).value, works, n, i + 1)
  {
    hide Placed, Path, Branch;
    var file, ref := OwnFile(works[n], i + 1), Own(works[n]);
    NothingInTheWay(remote, works, n, i, ref);
    NothingInTheWay(remote, works, n, i, Main(works[n].repo));
    var base := if ref in remote.branches then remote else Branched(remote, ref);
    BranchedPlaced(remote, works, n, i, ref);
    assert file !in base.files;
    OwnFilePlaced(base, works, n, i);
    var after := Committed(remote, file).value;
    CommittedOnce(remote, file);
    FilesOnly(base.(files := base.files + {file}), after, works, n, i + 1);
  }

  lemma FilesOnly(a: Remote, b: Remote, works: seq<Work>, n: nat, i: nat)
    requires WorksOk(works) && n <= |works| && Placed(a, works, n, i) && b.files == a.files
    ensures Placed(b, works, n, i)
  {
  }

  lemma {:induction false} MessagesLand(s: Session<Remote>, works: seq<Work>, n: nat, i: nat)
    requires WorksOk(works) && Apart(works) && n < |works| && i <= |works[n].commits|
    requires Landed(s.remote, works, n, i) && s.alive && s.calls >= 3 * (|works[n].commits| - i)
    ensures var t := PushCommits(s, works[n], i + 1);
            && t.alive && Landed(t.remote, works, n, |works[n].commits|)
            && t.calls >= s.calls - 3 * (|works[n].commits| - i)
    decreases |works[n].commits| - i
  {
    hide Landed, Committed, OwnFile;
    if i < |works[n].commits| {
      NextMessageLands(s.remote, works, n, i);
      var next := Called(Called(Called(s))).(remote := Committed(s.remote, OwnFile(works[n], i + 1)).value);
      MessagesLand(next, works, n, i + 1);
    }
  }

  lemma MergedPlaced(remote: Remote, works: seq<Work>, n: nat, next: nat)
    requires WorksOk(works) && n < |works| && next == n + 1 && works[n].mr == Request(true)
    requires Placed(remote, works, next, 0)
    ensures Placed(Merged(remote, Own(works[n])), works, next, 0)
  {
    hide Path, Branch;
    var ref := Own(works[n]);
    var after := Merged(remote, ref);
    forall f | f in after.files
      ensures exists a: nat, j: nat :: Explains(works, f, a, j, next, 0)
    {
      if f !in remote.files {
        var m := At(ref, f.path);
        var a: nat, j: nat :| Explains(works, m, a, j, next, 0);
        assert Own(works[a]) == ref ==> ReachesMain(works, a, next);
        assert Explains(works, f, a, j, next, 0);
      }
    }
  }

  lemma RequestLands(s: Session<Remote>, works: seq<Work>, n: nat)
    requires WorksOk(works) && n < |works| && works[n].mr.Request? && s.alive && s.calls >= 3
    requires Own(works[n]) in s.remote.branches
    requires Placed(s.remote, works, n + 1, 0)
    ensures var t := EnsureRequest(s, works[n]);
            && t.alive && t.calls >= s.calls - 3
            && Placed(t.remote, works, n + 1, 0) && t.remote.commits == s.remote.commits
  {
    hide Placed, Own;
    var ref := Own(works[n]);
    var present := if ref in s.remote.requests then s.remote
                   else s.remote.(requests := s.remote.requests + multiset{ref});
    FilesOnly(s.remote, present, works, n + 1, 0);
    if works[n].mr.merged {
      MergedPlaced(present, works, n, n + 1);
    }
  }

  lemma MaintainerLands(s: Session<Remote>, works: seq<Work>, n: nat)
    requires WorksOk(works) && n < |works| && Landed(s.remote, works, n, 0) && s.calls >= 3
    ensures var t := EnsureMaintainer(s, works[n]);
            (s.alive ==> t.alive) && t.calls >= s.calls - 3 && Landed(t.remote, works, n, 0)
  {
    hide Placed;
    FilesOnly(s.remote, EnsureMaintainer(s, works[n]).remote, works, n, 0);
  }

  lemma WorkLands(s: Session<Remote>, works: seq<Work>, n: nat)
    requires WorksOk(works) && Apart(works) && n < |works| && Landed(s.remote, works, n, 0)
    requires works[n].mr.Request? ==> works[n].commits != []
    requires s.alive && s.calls >= 3 * |works[n].commits| + 6
    ensures var t := PushOne(s, works[n]);
            && t.alive && t.calls >= s.calls - (3 * |works[n].commits| + 6)
            && Landed(t.remote, works, n + 1, 0)
  {
    hide Placed, EnsureMaintainer, EnsureRequest, PushCommits, Own;
    var w := works[n];
    MaintainerLands(s, works, n);
    var granted := if w.toMain then EnsureMaintainer(s, w) else s;
    MaintainerAlive(s, w);
    MessagesLand(granted, works, n, 0);
    var pushed := PushCommits(granted, w, 1);
    PlacedLater(pushed.remote, works, n, |w.commits|, n + 1, 0);
    if w.mr.Request? {
      RequestLands(pushed, works, n);
    }
  }

  lemma MaintainerAlive(s: Session<Remote>, w: Work)
    requires s.alive && s.calls >= 3
    ensures EnsureMaintainer(s, w).alive
  {
  }

  lemma {:induction false} PlanLands(s: Session<Remote>, works: seq<Work>, n: nat)
    requires WorksOk(works) && Apart(works) && n <= |works| && Landed(s.remote, works, n, 0)
    requires forall a :: 0 <= a < |works| && works[a].mr.Request? ==> works[a].commits != []
    requires s.alive && s.calls >= Budget(works[n..])
    ensures var t := PushAll(s, works[n..]);
            t.alive && |t.remote.commits| == Messages(works, |works|)
    decreases |works| - n
  {
    hide Landed, PushOne;
    if n < |works| {
      assert works[n..][0] == works[n] && works[n..][1..] == works[n + 1..];
      WorkLands(s, works, n);
      PlanLands(PushOne(s, works[n]), works, n + 1);
    } else {
      LandedCounts(s.remote, works, n);
    }
  }

  lemma LandedCounts(remote: Remote, works: seq<Work>, n: nat)
    requires WorksOk(works) && n <= |works| && Landed(remote, works, n, 0)
    ensures |remote.commits| == Messages(works, n)
  {
  }

  // ------------------------------------------------------------ clashing: some message does not

  // Work x has put its first file on ref.
  ghost predicate Starts(remote: Remote, works: seq<Work>, x: nat, ref: Ref, n: nat)
    requires WorksOk(works)
  {
    x < n && x < |works| && Own(works[x]) == ref && OwnFile(works[x], 1) in remote.files
  }

  // Main has the first file of work x, which is on ref.
  ghost predicate Brings(remote: Remote, works: seq<Work>, x: nat, ref: Ref, n: nat)
    requires WorksOk(works)
  {
    && x < n && x < |works| && Own(works[x]) == ref
    && At(Main(works[x].repo), OwnFile(works[x], 1).path) in remote.files
  }

  // Where branches and merges come from.
  ghost predicate Known(remote: Remote, works: seq<Work>, n: nat)
    requires WorksOk(works)
  {
    && (forall ref :: ref in remote.branches ==>
          ref.branch == "main" || exists x: nat :: Starts(remote, works, x, ref, n))
    && (forall ref :: ref in remote.merged ==> exists x: nat :: Brings(remote, works, x, ref, n))
    && (forall ref :: ref in remote.requests ==> ref in remote.branches)
  }

  // What the works before n leave when each gets through.
  ghost predicate Through(remote: Remote, works: seq<Work>, n: nat)
    requires WorksOk(works) && n <= |works|
  {
    && (forall a :: 0 <= a < n && works[a].commits != [] ==> OwnFile(works[a], 1) in remote.files)
    && (forall a :: 0 <= a < n && works[a].mr == Request(true) ==> Own(works[a]) in remote.merged)
  }

  lemma KnownLater(a: Remote, b: Remote, works: seq<Work>, n: nat, n': nat)
    requires WorksOk(works) && Known(a, works, n) && n <= n' && a.files <= b.files
    requires a.branches <= b.branches && a.merged <= b.merged
    requires forall ref :: ref in b.branches && ref !in a.branches ==>
               ref.branch == "main" || exists x: nat :: Starts(b, works, x, ref, n')
    requires forall ref :: ref in b.merged && ref !in a.merged ==> exists x: nat :: Brings(b, works, x, ref, n')
    requires forall ref :: ref in b.requests && ref !in a.requests ==> ref in b.branches
    ensures Known(b, works, n')
  {
    hide OwnFile, Own;
    forall ref | ref in b.branches && ref in a.branches && ref.branch != "main"
      ensures exists x: nat :: Starts(b, works, x, ref, n')
    {
      var x: nat :| Starts(a, works, x, ref, n);
      assert Starts(b, works, x, ref, n');
    }
    forall ref | ref in b.merged && ref in a.merged
      ensures exists x: nat :: Brings(b, works, x, ref, n')
    {
      var x: nat :| Brings(a, works, x, ref, n);
      assert Brings(b, works, x, ref, n');
    }
  }

  lemma CommittedGrows(remote: Remote, file: At)
    requires Committed(remote, file).Some?
    ensures var after := Committed(remote, file).value;
            && file !in remote.files && file in after.files && remote.files <= after.files
            && after.branches == remote.branches + {file.ref}
            && after.merged == remote.merged && after.requests == remote.requests
            && |after.commits| == |remote.commits| + 1
  {
  }

  lemma CommittedKnown(remote: Remote, works: seq<Work>, n: nat, index: nat)
    requires WorksOk(works) && n < |works| && index > 0 && Known(remote, works, n + 1)
    requires index > 1 ==> OwnFile(works[n], 1) in remote.files
    requires Committed(remote, OwnFile(works[n], index)).Some?
    ensures Known(Committed(remote, OwnFile(works[n], index)).value, works, n + 1)
  {
    hide Committed, Path, Branch;
    var file := OwnFile(works[n], index);
    CommittedGrows(remote, file);
    var after := Committed(remote, file).value;
    assert Starts(after, works, n, Own(works[n]), n + 1);
    KnownLater(remote, after, works, n + 1, n + 1);
  }

  // A work makes at most as many commits as it has messages, and fewer when
  // the file of one is there already.
  lemma {:induction false} PushCommitsAtMost(s: Session<Remote>, works: seq<Work>, n: nat, index: nat)
    requires WorksOk(works) && n < |works| && 0 < index <= |works[n].commits| + 1
    requires Known(s.remote, works, n + 1) && (index > 1 ==> OwnFile(works[n], 1) in s.remote.files)
    ensures var t := PushCommits(s, works[n], index);
            && Known(t.remote, works, n + 1)
            && s.remote.files <= t.remote.files && t.remote.merged == s.remote.merged
            && |t.remote.commits| <= |s.remote.commits| + |works[n].commits| + 1 - index
            && (index <= |works[n].commits| && OwnFile(works[n], index) in s.remote.files ==>
                  |t.remote.commits| < |s.remote.commits| + |works[n].commits| + 1 - index)
            && (t.alive && works[n].commits != [] ==> OwnFile(works[n], 1) in t.remote.files)
    decreases |works[n].commits| + 1 - index
  {
    hide Known, Committed, OwnFile;
    var w := works[n];
    if s.alive && index <= |w.commits| {
      var file := OwnFile(w, index);
      var looked := Called(s);
      if looked.alive && file in looked.remote.files {
        PushCommitsAtMost(looked, works, n, index + 1);
      } else if looked.alive {
        var ready := Called(looked);
        var sent := if ready.alive then Called(ready) else ready;
        if sent.alive && Committed(sent.remote, file).Some? {
          CommittedGrows(s.remote, file);
          CommittedKnown(s.remote, works, n, index);
          PushCommitsAtMost(sent.(remote := Committed(s.remote, file).value), works, n, index + 1);
        }
      }
    }
  }

  lemma MergedKnown(remote: Remote, works: seq<Work>, n: nat)
    requires WorksOk(works) && n < |works| && works[n].mr == Request(true)
    requires Known(remote, works, n + 1) && Own(works[n]) in remote.branches
    ensures Known(Merged(remote, Own(works[n])), works, n + 1)
  {
    hide Path, Branch;
    var ref := Own(works[n]);
    var after := Merged(remote, ref);
    OwnIsMainIff(works[n]);
    var x: nat :| Starts(remote, works, x, ref, n + 1);
    OwnIsMainIff(works[x]);
    assert OwnFile(works[x], 1).path == At(Main(ref.repo), OwnFile(works[x], 1).path).path;
    assert Brings(after, works, x, ref, n + 1);
    KnownLater(remote, after, works, n + 1, n + 1);
  }

  lemma EnsureRequestKnown(s: Session<Remote>, works: seq<Work>, n: nat)
    requires WorksOk(works) && n < |works| && works[n].mr.Request? && Known(s.remote, works, n + 1)
    ensures var t := EnsureRequest(s, works[n]);
            && Known(t.remote, works, n + 1) && s.remote.files <= t.remote.files
            && s.remote.merged <= t.remote.merged && t.remote.commits == s.remote.commits
            && (t.alive && works[n].mr.merged ==> Own(works[n]) in t.remote.merged)
  {
    hide Own;
    var ref := Own(works[n]);
    var present := s.remote.(requests := s.remote.requests + multiset{ref});
    if ref in s.remote.branches {
      hide Known;
      PresentKnown(s.remote, works, n);
      if works[n].mr.merged {
        MergedKnown(present, works, n);
        MergedKnown(s.remote, works, n);
      }
    }
  }

  lemma PresentKnown(remote: Remote, works: seq<Work>, n: nat)
    requires WorksOk(works) && n < |works| && Known(remote, works, n + 1) && Own(works[n]) in remote.branches
    ensures Known(remote.(requests := remote.requests + multiset{Own(works[n])}), works, n + 1)
  {
    hide Own, OwnFile;
    KnownLater(remote, remote.(requests := remote.requests + multiset{Own(works[n])}), works, n + 1, n + 1);
  }

  lemma WorkAtMost(s: Session<Remote>, works: seq<Work>, n: nat)
    requires WorksOk(works) && n < |works| && Known(s.remote, works, n) && Through(s.remote, works, n)
    ensures var t := PushOne(s, works[n]);
            && Known(t.remote, works, n + 1)
            && |t.remote.commits| <= |s.remote.commits| + |works[n].commits|
            && (works[n].commits != [] && OwnFile(works[n], 1) in s.remote.files ==>
                  |t.remote.commits| < |s.remote.commits| + |works[n].commits|)
            && (s.alive && t.alive ==> Through(t.remote, works, n + 1))
  {
    hide Known, Through, EnsureRequest, PushCommits, OwnFile, Own;
    var w := works[n];
    var granted := if w.toMain then EnsureMaintainer(s, w) else s;
    GrantedKnown(s.remote, granted.remote, works, n);
    PushCommitsAtMost(granted, works, n, 1);
    var pushed := PushCommits(granted, w, 1);
    if w.mr.Request? {
      EnsureRequestKnown(pushed, works, n);
    }
    var t := PushOne(s, w);
    if s.alive && t.alive {
      ThroughLater(s.remote, t.remote, works, n);
    }
  }

  lemma GrantedKnown(a: Remote, b: Remote, works: seq<Work>, n: nat)
    requires WorksOk(works) && Known(a, works, n) && b == a.(maintainers := b.maintainers)
    ensures Known(b, works, n + 1)
  {
    hide Own, OwnFile;
    KnownLater(a, b, works, n, n + 1);
  }

  lemma ThroughLater(a: Remote, b: Remote, works: seq<Work>, n: nat)
    requires WorksOk(works) && n < |works| && Through(a, works, n) && a.files <= b.files && a.merged <= b.merged
    requires works[n].commits != [] ==> OwnFile(works[n], 1) in b.files
    requires works[n].mr == Request(true) ==> Own(works[n]) in b.merged
    ensures Through(b, works, n + 1)
  {
    hide Own, OwnFile;
  }

  lemma {:induction false} PlanAtMost(s: Session<Remote>, works: seq<Work>, n: nat, m: nat)
    requires WorksOk(works) && n <= m <= |works| && s.alive && Known(s.remote, works, n) && Through(s.remote, works, n)
    ensures var t := PushAll(s, works[n..m]);
            && |t.remote.commits| <= |s.remote.commits| + Messages(works, m) - Messages(works, n)
            && (t.alive ==> Known(t.remote, works, m) && Through(t.remote, works, m))
    decreases m - n
  {
    hide Known, Through, PushOne;
    if n < m {
      var mid := PushOne(s, works[n]);
      WorkAtMost(s, works, n);
      Slice(works, n, m);
      MessagesGrow(works, n + 1, m);
      if mid.alive {
        PlanAtMost(mid, works, n + 1, m);
      }
    }
  }

  lemma Slice(works: seq<Work>, n: nat, m: nat)
    requires n < m <= |works|
    ensures works[n..m] != [] && works[n..m][0] == works[n] && works[n..m][1..] == works[n + 1..m]
  {
  }

  lemma {:induction false} MessagesGrow(works: seq<Work>, n: nat, m: nat)
    requires n <= m <= |works|
    ensures Messages(works, n) <= Messages(works, m)
    decreases m - n
  {
    if n < m {
      MessagesGrow(works, n, m - 1);
    }
  }

  lemma {:induction false} PushAllInTurn(s: Session<Remote>, a: seq<Work>, b: seq<Work>)
    ensures PushAll(s, a + b) == PushAll(PushAll(s, a), b)
    decreases |a|
  {
    hide PushOne;
    if a == [] {
      assert a + b == b;
    } else if s.alive {
      assert (a + b)[0] == a[0] && (a + b)[1..] == a[1..] + b;
      PushAllInTurn(PushOne(s, a[0]), a[1..], b);
    }
  }

  // The first message of work n has its file where it goes, or on main when
  // its branch has yet to be made.
  ghost predicate Blocked(remote: Remote, w: Work)
    requires w.key.Some?
  {
    || OwnFile(w, 1) in remote.files
    || (Own(w) !in remote.branches && At(Main(w.repo), Path(w.key.value, 1)) in remote.files)
  }

  lemma ClashReachesMain(remote: Remote, works: seq<Work>, a: nat, n: nat)
    requires WorksOk(works) && a < n < |works| && Known(remote, works, n) && Through(remote, works, n)
    requires works[a].commits != [] && ReachesMain(works, a, n)
    ensures At(Main(works[a].repo), Path(works[a].key.value, 1)) in remote.files
  {
    hide Path, Branch;
    OwnIsMainIff(works[a]);
    if !works[a].toMain {
      var c :| a <= c < n && works[c].mr == Request(true) && Own(works[c]) == Own(works[a]);
      assert Own(works[c]) in remote.merged;
      var x: nat :| Brings(remote, works, x, Own(works[c]), n);
      OwnRefKeys(works[a], works[x]);
    }
  }

  lemma ClashBlocks(remote: Remote, works: seq<Work>, a: nat, n: nat)
    requires WorksOk(works) && a < n < |works| && Clash(works, a, n)
    requires Known(remote, works, n) && Through(remote, works, n)
    ensures Blocked(remote, works[n])
  {
    hide Path, Branch;
    if Own(works[a]) == Own(works[n]) {
      assert OwnFile(works[a], 1) == OwnFile(works[n], 1);
    } else {
      ClashReachesMain(remote, works, a, n);
      OwnIsMainIff(works[n]);
      if Own(works[n]) in remote.branches && !works[n].toMain {
        var x: nat :| Starts(remote, works, x, Own(works[n]), n);
        OwnRefKeys(works[n], works[x]);
      }
    }
  }

  lemma BlockedCommitIsRefused(remote: Remote, w: Work)
    requires w.key.Some? && Blocked(remote, w) && OwnFile(w, 1) !in remote.files
    ensures Committed(remote, OwnFile(w, 1)) == None
  {
    hide Path, Branch;
    var file := OwnFile(w, 1);
    assert file == At(file.ref, At(Main(w.repo), file.path).path);
    assert file in Branched(remote, file.ref).files;
  }

  // The first commit onto a branch yet to be made is taken exactly when main
  // does not have its file.
  lemma FirstCommitIff(remote: Remote, w: Work)
    requires w.key.Some? && Own(w) !in remote.branches
    requires forall f :: f in remote.files ==> f.ref in remote.branches
    ensures Committed(remote, OwnFile(w, 1)).Some? <==> At(Main(w.repo), Path(w.key.value, 1)) !in remote.files
  {
    hide Path, Branch;
    if At(Main(w.repo), Path(w.key.value, 1)) in remote.files {
      BlockedCommitIsRefused(remote, w);
    } else {
      assert OwnFile(w, 1) !in Branched(remote, Own(w)).files;
    }
  }

  lemma BlockedWorkMisses(s: Session<Remote>, works: seq<Work>, n: nat)
    requires WorksOk(works) && n < |works| && Known(s.remote, works, n) && Through(s.remote, works, n)
    requires s.alive && works[n].commits != [] && Blocked(s.remote, works[n])
    ensures var t := PushOne(s, works[n]);
            !t.alive || |t.remote.commits| < |s.remote.commits| + |works[n].commits|
  {
    hide Known, Through, OwnFile, Own, Path, Committed, EnsureRequest;
    WorkAtMost(s, works, n);
    if OwnFile(works[n], 1) !in s.remote.files {
      var w := works[n];
      var granted := if w.toMain then EnsureMaintainer(s, w) else s;
      BlockedSame(s.remote, granted.remote, w);
      BlockedCommitIsRefused(granted.remote, w);
      assert !PushCommits(granted, w, 1).alive;
    }
  }

  lemma BlockedSame(a: Remote, b: Remote, w: Work)
    requires w.key.Some? && Blocked(a, w) && b == a.(maintainers := b.maintainers)
    ensures Blocked(b, w)
  {
  }

  lemma MissesFrom(s: Session<Remote>, works: seq<Work>, n: nat)
    requires WorksOk(works) && n < |works| && s.alive && Known(s.remote, works, n) && Through(s.remote, works, n)
    requires works[n].commits != [] && Blocked(s.remote, works[n])
    ensures var t := PushAll(s, works[n..]);
            !t.alive || |t.remote.commits| < |s.remote.commits| + Messages(works, |works|) - Messages(works, n)
  {
    hide Known, Through, PushOne, Blocked;
    var mid := PushOne(s, works[n]);
    BlockedWorkMisses(s, works, n);
    WorkAtMost(s, works, n);
    Slice(works, n, |works|);
    assert works[n..] == works[n..|works|];
    if mid.alive {
      PlanAtMost(mid, works, n + 1, |works|);
    }
  }

  // With works that clash, no run that gets through has committed them all.
  lemma ClashingWorksMiss(remote: Remote, works: seq<Work>, calls: nat)
    requires WorksOk(works) && Fresh(remote) && !Apart(works)
    ensures var t := Run(remote, works, calls);
            !t.alive || |t.remote.commits| < Messages(works, |works|)
  {
    hide Clash, Known, Through, PushOne, Blocked, PushAll;
    var a, n :| 0 <= a < n < |works| && Clash(works, a, n);
    var s := Session(remote, calls, true);
    FreshIsKnown(remote, works);
    var before := PushAll(s, works[0..n]);
    PlanAtMost(s, works, 0, n);
    assert works == works[0..n] + works[n..];
    PushAllInTurn(s, works[0..n], works[n..]);
    if before.alive {
      ClashBlocks(before.remote, works, a, n);
      HasMessages(works, a, n);
      MissesFrom(before, works, n);
    } else {
      PushAllDead(before, works[n..]);
    }
  }

  lemma PushAllDead(s: Session<Remote>, works: seq<Work>)
    requires !s.alive
    ensures !PushAll(s, works).alive
  {
  }

  lemma HasMessages(works: seq<Work>, a: nat, n: nat)
    requires WorksOk(works) && a < n < |works| && Clash(works, a, n)
    ensures works[n].commits != []
  {
  }

  lemma FreshIsKnown(remote: Remote, works: seq<Work>)
    requires WorksOk(works) && Fresh(remote)
    ensures Known(remote, works, 0) && Through(remote, works, 0) && Landed(remote, works, 0, 0)
  {
  }

  // A run from fresh repositories, with calls enough, commits every message of
  // the plan exactly when no two works clash.
  lemma AllMessagesLandIffApart(remote: Remote, works: seq<Work>, calls: nat)
    requires WorksOk(works) && Fresh(remote) && calls >= Budget(works)
    requires forall a :: 0 <= a < |works| && works[a].mr.Request? ==> works[a].commits != []
    ensures var t := Run(remote, works, calls);
            (t.alive && |t.remote.commits| == Messages(works, |works|)) <==> Apart(works)
  {
    hide Landed, Apart;
    if Apart(works) {
      FreshIsKnown(remote, works);
      assert works[0..] == works;
      PlanLands(Session(remote, calls, true), works, 0);
    } else {
      ClashingWorksMiss(remote, works, calls);
    }
  }

  // ------------------------------------------------------------ two ways to clash

  ghost predicate OnlyMain(remote: Remote) {
    && (forall ref :: ref in remote.branches ==> ref.branch == "main")
    && (forall f :: f in remote.files ==> f.ref.branch == "main")
  }

  lemma CommitOnMain(remote: Remote, file: At)
    requires OnlyMain(remote) && file.ref.branch == "main" && Committed(remote, file).Some?
    ensures OnlyMain(Committed(remote, file).value)
  {
  }

  lemma {:induction false} PushesOnMain(s: Session<Remote>, w: Work, index: nat)
    requires WorkOk(w) && w.toMain && index > 0 && OnlyMain(s.remote)
    ensures OnlyMain(PushCommits(s, w, index).remote)
    decreases |w.commits| + 1 - index
  {
    hide OnlyMain, Committed, Own;
    OwnIsMainIff(w);
    if s.alive && index <= |w.commits| {
      var file := OwnFile(w, index);
      var looked := Called(s);
      if looked.alive && file in looked.remote.files {
        PushesOnMain(looked, w, index + 1);
      } else if looked.alive {
        var sent := Called(Called(looked));
        if Called(looked).alive && sent.alive && Committed(s.remote, file).Some? {
          CommitOnMain(s.remote, file);
          PushesOnMain(sent.(remote := Committed(s.remote, file).value), w, index + 1);
        }
      }
    }
  }

  lemma BlockedBranchStops(s: Session<Remote>, w: Work)
    requires WorkOk(w) && !w.toMain && w.commits != [] && OnlyMain(s.remote) && Blocked(s.remote, w)
    ensures !PushOne(s, w).alive || !s.alive
  {
    hide Path, Branch, Committed;
    OwnIsMainIff(w);
    assert OwnFile(w, 1).ref.branch != "main";
    BlockedCommitIsRefused(s.remote, w);
    assert !PushCommits(s, w, 1).alive;
  }

  // One issue, first straight to main, then on a branch: the branch starts with
  // main's file, the commit is refused, and no run ever gets through.
  lemma MainThenBranchNeverFinishes(remote: Remote, w: Work, v: Work, calls: nat)
    requires Fresh(remote) && WorkOk(w) && WorkOk(v) && w.repo == v.repo && w.key == v.key
    requires w.toMain && !v.toMain && w.commits != [] && v.commits != []
    ensures !Run(remote, [w, v], calls).alive
  {
    hide PushCommits, Own, Path, Known, Through, Blocked, OnlyMain;
    var works, s := [w, v], Session(remote, calls, true);
    FreshIsKnown(remote, works);
    var mid := PushOne(s, w);
    WorkAtMost(s, works, 0);
    assert works[1..] == [v] && [v][1..] == [];
    assert Run(remote, works, calls) == PushAll(mid, [v]);
    if mid.alive {
      ToMainReaches(works, 0, 1);
      ClashBlocks(mid.remote, works, 0, 1);
      FreshIsMain(remote);
      GrantedIsMain(remote, EnsureMaintainer(s, w).remote);
      PushesOnMain(EnsureMaintainer(s, w), w, 1);
      assert mid.remote == PushCommits(EnsureMaintainer(s, w), w, 1).remote;
      BlockedBranchStops(mid, v);
      assert PushAll(mid, [v]) == PushAll(PushOne(mid, v), []) == PushOne(mid, v);
    }
  }

  lemma FreshIsMain(remote: Remote)
    requires Fresh(remote)
    ensures OnlyMain(remote)
  {
  }

  lemma GrantedIsMain(a: Remote, b: Remote)
    requires OnlyMain(a) && b == a.(maintainers := b.maintainers)
    ensures OnlyMain(b)
  {
  }

  lemma {:induction false} NothingLeftToPush(s: Session<Remote>, w: Work, index: nat)
    requires w.key.Some? && 0 < index <= |w.commits| + 1 && Pushed(s.remote, w, index)
    requires s.alive && s.calls >= |w.commits| + 1 - index
    ensures PushCommits(s, w, index).alive && PushCommits(s, w, index).remote == s.remote
    decreases |w.commits| + 1 - index
  {
    if index <= |w.commits| {
      NothingLeftToPush(Called(s), w, index + 1);
    }
  }

  // One issue twice on one branch: the second work's messages are taken for
  // pushed already, and the run reports success without them.
  lemma SameBranchIsSkipped(remote: Remote, w: Work, v: Work, calls: nat)
    requires Fresh(remote) && Main(w.repo) in remote.branches && WorkOk(w) && WorkOk(v)
    requires w.key == v.key && Own(w) == Own(v) && !w.toMain && w.mr.NoRequest? && v.mr.NoRequest?
    requires 0 < |v.commits| <= |w.commits| && calls >= Budget([w, v])
    ensures var t := Run(remote, [w, v], calls);
            t.alive && |t.remote.commits| == |w.commits| < Messages([w, v], 2)
  {
    hide Placed, Inv, PushCommits, Own, Path;
    var s, alone := Session(remote, calls, true), [w];
    assert [w, v][1..] == [v] && [v][1..] == [] && [w][1..] == [] && [w][0] == w;
    FreshIsKnown(remote, alone);
    OwnRefKeys(w, v);
    FreshInv(remote, w);
    WorkLands(s, alone, 0);
    PushOneKeeps(s, alone, 0);
    var mid := PushOne(s, w);
    assert Messages(alone, 1) == Messages(alone, 0) + |w.commits|;
    assert Messages([w, v], 2) == Messages([w, v], 1) + |v.commits| == |w.commits| + |v.commits|;
    SameFilesPushed(mid.remote, w, v);
    NothingLeftToPush(mid, v, 1);
    assert PushAll(mid, [v]) == PushOne(mid, v);
  }

  lemma SameFilesPushed(remote: Remote, w: Work, v: Work)
    requires w.key.Some? && w.key == v.key && Own(w) == Own(v) && |v.commits| <= |w.commits| && Pushed(remote, w, 1)
    ensures Pushed(remote, v, 1)
  {
    hide Path, Branch;
    assert forall i: nat :: OwnFile(v, i) == OwnFile(w, i);
  }

  lemma FreshInv(remote: Remote, w: Work)
    requires Fresh(remote) && WorkOk(w) && Main(w.repo) in remote.branches
    ensures PlanOk([w]) && Inv(remote, [w])
  {
  }
}
