// Filling the QA GitLab: guarded remote writes that may be cut off after any
// call, and what repeated runs converge to.
module GitLabSeed {
  import opened Common
  import opened BranchNames
  import opened CutOff
  import Decimal
  import Text

  datatype Wish = NoRequest | Request(merged: bool)

  // A piece of work with its issue's key, if the state file has one.
  datatype Work = Work(repo: string, author: string, key: Option<string>, lowered: string,
                       commits: seq<string>, mr: Wish, toMain: bool)

  datatype Ref = Ref(repo: string, branch: string)

  // A file on a branch; also names the commit that adds it.
  datatype At = At(ref: Ref, path: string)

  datatype Remote = Remote(
    branches: set<Ref>,
    files: set<At>,
    commits: multiset<At>,
    requests: multiset<Ref>,            // merge requests by source branch, in any state
    merged: set<Ref>,
    maintainers: set<(string, string)>)

  // ------------------------------------------------------------ paths

  function LowerChar(c: char): char {
    if 'A' <= c <= 'Z' then (c as int + 32) as char else c
  }

  function Lower(s: string): (r: string)
    ensures |r| == |s| && forall i :: 0 <= i < |s| ==> r[i] == LowerChar(s[i])
  {
    seq(|s|, i requires 0 <= i < |s| => LowerChar(s[i]))
  }

  // f"changes/{key.lower()}-{index}.md"
  function Path(key: string, index: nat): string {
    "changes/" + Lower(key) + "-" + Decimal.Digits(index) + ".md"
  }

  // A path spells its key in lower case.
  lemma PathIsLower(key: string, index: nat)
    ensures forall c :: c in Path(key, index) ==> !('A' <= c <= 'Z')
  {
    var head, low, tail := "changes/", Lower(key), "-" + Decimal.Digits(index) + ".md";
    assert Path(key, index) == head + low + tail;
    hide Path, Decimal.Digits;
    assert forall c :: c in head + low + tail ==> c in head || c in low || c in tail;
    assert forall c :: c in tail ==> c == '-' || Decimal.IsDigit(c) || c in ".md";
  }

  lemma PathTail(key: string, index: nat)
    requires IsKey(key)
    ensures |Path(key, index)| >= 12 && Path(key, index)[8..12] == Lower(key)[..4]
    ensures Path(key, index)[12..] == key[4..] + "-" + (Decimal.Digits(index) + ".md")
    ensures '-' !in key[4..]
  {
    var low := Lower(key);
    var tail := Decimal.Digits(index) + ".md";
    assert low[4..] == key[4..];
    assert low == low[..4] + low[4..];
    assert Path(key, index) == "changes/" + (low[..4] + (low[4..] + "-" + tail));
  }

  lemma PrefixFromLower(key: string, key': string)
    requires IsKey(key) && IsKey(key') && Lower(key)[..4] == Lower(key')[..4]
    ensures key[..4] == key'[..4]
  {
    var low, low' := Lower(key), Lower(key');
    assert forall i :: 0 <= i < 4 ==> low[i] == low[..4][i] == low'[..4][i] == low'[i];
    assert forall i :: 0 <= i < 3 ==> key[i] == key[..3][i] && key'[i] == key'[..3][i];
    assert forall i :: 0 <= i < 3 ==> 'A' <= key[i] <= 'Z' && 'A' <= key'[i] <= 'Z';
    assert forall i :: 0 <= i < 4 ==> key[i] == key'[i];
  }

  // Different keys or indices never share a file.
  lemma PathsAreApart(key: string, index: nat, key': string, index': nat)
    requires IsKey(key) && IsKey(key') && Path(key, index) == Path(key', index')
    ensures key == key' && index == index'
  {
    hide Path, Lower, Decimal.Digits;
    PathTail(key, index);
    PathTail(key', index');
    PrefixFromLower(key, key');
    var tail, tail' := Decimal.Digits(index) + ".md", Decimal.Digits(index') + ".md";
    Text.FindAfter('-', key[4..], tail);
    Text.FindAfter('-', key'[4..], tail');
    var rest := Path(key, index)[12..];
    var n := Text.Find('-', rest);
    assert key[4..] == rest[..n] == key'[4..];
    assert tail == rest[n + 1..] == tail';
    assert key == key[..4] + key[4..] && key' == key'[..4] + key'[4..];
    assert Decimal.Digits(index) == tail[..|tail| - 3];
    assert Decimal.Digits(index') == tail'[..|tail'| - 3];
  }

  // ------------------------------------------------------------ the remote's writes

  function Own(w: Work): Ref
    requires w.key.Some?
  {
    Ref(w.repo, Branch(w.toMain, w.lowered, w.key.value))
  }

  function OwnFile(w: Work, index: nat): At
    requires w.key.Some?
  {
    At(Own(w), Path(w.key.value, index))
  }

  // Creating a branch from main copies main's files.
  function Branched(remote: Remote, ref: Ref): Remote {
    remote.(branches := remote.branches + {ref},
            files := remote.files + set f | f in remote.files && f.ref == Ref(ref.repo, "main") :: At(ref, f.path))
  }

  // POST commits with one "create" action; it fails when the file is there.
  function Committed(remote: Remote, file: At): Option<Remote> {
    var base := if file.ref in remote.branches then remote else Branched(remote, file.ref);
    if file in base.files then None
    else Some(base.(files := base.files + {file}, commits := base.commits + multiset{file}))
  }

  lemma CommittedOnce(remote: Remote, file: At)
    requires Committed(remote, file).Some?
    ensures Committed(remote, file).value.commits == remote.commits + multiset{file}
  {
  }

  function Merged(remote: Remote, ref: Ref): Remote {
    remote.(merged := remote.merged + {ref},
            files := remote.files + set f | f in remote.files && f.ref == ref :: At(Ref(ref.repo, "main"), f.path))
  }

  lemma MergedOnly(remote: Remote, ref: Ref)
    ensures var after := Merged(remote, ref);
            && after.merged == remote.merged + {ref} && after.requests == remote.requests
            && after.commits == remote.commits && after.branches == remote.branches
  {
  }

  // ------------------------------------------------------------ one run, as a function

  function PushCommits(s: Session<Remote>, w: Work, index: nat): Session<Remote>
    requires w.key.Some? && index > 0
    decreases |w.commits| + 1 - index
  {
    if !s.alive || index > |w.commits| then s
    else
      var file := OwnFile(w, index);
      var looked := Called(s);
      if !looked.alive then looked
      else if file in looked.remote.files then PushCommits(looked, w, index + 1)
      else
        var ready := Called(looked);
        var sent := if ready.alive then Called(ready) else ready;
        if !sent.alive then sent
        else
          match Committed(sent.remote, file)
          case None => Stopped(sent)
          case Some(remote) => PushCommits(sent.(remote := remote), w, index + 1)
  }

  function EnsureRequest(s: Session<Remote>, w: Work): Session<Remote>
    requires w.key.Some? && w.mr.Request?
  {
    var ref := Own(w);
    var looked := Called(s);
    var present :=
      if !looked.alive || ref in looked.remote.requests then looked
      else
        var sent := Called(looked);
        if !sent.alive then sent
        else if ref !in sent.remote.branches then Stopped(sent)
        else sent.(remote := sent.remote.(requests := sent.remote.requests + multiset{ref}));
    if !present.alive || !w.mr.merged || ref in present.remote.merged then present
    else
      var sent := Called(present);
      if !sent.alive then sent else sent.(remote := Merged(sent.remote, ref))
  }

  function EnsureMaintainer(s: Session<Remote>, w: Work): Session<Remote> {
    var asked := Called(s);
    var sent := if asked.alive then Called(asked) else asked;
    if !sent.alive then sent
    else if (w.repo, w.author) in sent.remote.maintainers then Called(sent)
    else sent.(remote := sent.remote.(maintainers := sent.remote.maintainers + {(w.repo, w.author)}))
  }

  function PushOne(s: Session<Remote>, w: Work): Session<Remote> {
    if w.key.None? then Stopped(s)
    else
      var granted := if w.toMain then EnsureMaintainer(s, w) else s;
      var pushed := PushCommits(granted, w, 1);
      if pushed.alive && w.mr.Request? then EnsureRequest(pushed, w) else pushed
  }

  function PushAll(s: Session<Remote>, works: seq<Work>): Session<Remote>
    decreases |works|
  {
    if !s.alive || works == [] then s else PushAll(PushOne(s, works[0]), works[1..])
  }

  function Run(remote: Remote, works: seq<Work>, calls: nat): Session<Remote> {
    PushAll(Session(remote, calls, true), works)
  }

  // ------------------------------------------------------------ one run, as the script makes it

  class Seeder {
    var remote: Remote
    var calls: nat

    constructor (remote: Remote, calls: nat)
      ensures this.remote == remote && this.calls == calls
    {
      this.remote, this.calls := remote, calls;
    }

    ghost function Now(alive: bool): Session<Remote>
      reads this
    {
      Session(remote, calls, alive)
    }

    method Call() returns (alive: bool)
      modifies this`calls
      ensures Now(alive) == Called(old(Now(true)))
    {
      if calls == 0 {
        return false;
      }
      calls := calls - 1;
      return true;
    }

    method PushCommitsOf(w: Work) returns (alive: bool, pushed: nat)
      requires w.key.Some?
      modifies this
      ensures Now(alive) == PushCommits(old(Now(true)), w, 1)
      ensures |remote.commits| == |old(remote.commits)| + pushed
    {
      hide Own, Path, OwnFile, Committed;
      pushed := 0;
      for i := 0 to |w.commits|
        invariant PushCommits(old(Now(true)), w, 1) == PushCommits(Now(true), w, i + 1)
        invariant |remote.commits| == |old(remote.commits)| + pushed
      {
        var file := OwnFile(w, i + 1);
        var ok := Call();
        if !ok {
          return false, pushed;
        }
        if file in remote.files {
          continue;
        }
        ok := Call();
        if ok {
          ok := Call();
        }
        if !ok {
          return false, pushed;
        }
        var committed := Committed(remote, file);
        if committed.None? {
          return false, pushed;
        }
        CommittedOnce(remote, file);
        remote := committed.value;
        pushed := pushed + 1;
      }
      return true, pushed;
    }

    method EnsureRequestOf(w: Work) returns (alive: bool)
      requires w.key.Some? && w.mr.Request?
      modifies this
      ensures Now(alive) == EnsureRequest(old(Now(true)), w)
      ensures alive ==> Own(w) in remote.requests && (w.mr.merged ==> Own(w) in remote.merged)
      ensures remote.requests == old(remote.requests)
              || (Own(w) !in old(remote.requests) && remote.requests == old(remote.requests) + multiset{Own(w)})
      ensures remote.merged == old(remote.merged)
              || (w.mr.merged && Own(w) !in old(remote.merged) && remote.merged == old(remote.merged) + {Own(w)})
      ensures remote.commits == old(remote.commits)
    {
      hide Own, Merged;
      var ref := Own(w);
      alive := Call();
      if !alive {
        return;
      }
      if ref !in remote.requests {
        alive := Call();
        if !alive {
          return;
        }
        if ref !in remote.branches {
          return false;
        }
        remote := remote.(requests := remote.requests + multiset{ref});
      }
      if w.mr.merged && ref !in remote.merged {
        alive := Call();
        if alive {
          MergedOnly(remote, ref);
          remote := Merged(remote, ref);
        }
      }
    }

    method EnsureMaintainerOf(w: Work) returns (alive: bool)
      modifies this
      ensures Now(alive) == EnsureMaintainer(old(Now(true)), w)
      ensures alive ==> (w.repo, w.author) in remote.maintainers
      ensures old(remote.maintainers) <= remote.maintainers <= old(remote.maintainers) + {(w.repo, w.author)}
    {
      alive := Call();
      if alive {
        alive := Call();
      }
      if !alive {
        return;
      }
      if (w.repo, w.author) in remote.maintainers {
        alive := Call();
      } else {
        remote := remote.(maintainers := remote.maintainers + {(w.repo, w.author)});
      }
    }

    method PushWork(works: seq<Work>) returns (alive: bool)
      modifies this
      ensures Now(alive) == Run(old(remote), works, old(calls))
    {
      for n := 0 to |works|
        invariant Run(old(remote), works, old(calls)) == PushAll(Now(true), works[n..])
      {
        var w := works[n];
        assert works[n..][1..] == works[n + 1..];
        if w.key.None? {
          return false;
        }
        if w.toMain {
          alive := EnsureMaintainerOf(w);
          if !alive {
            return;
          }
        }
        var pushed;
        alive, pushed := PushCommitsOf(w);
        if alive && w.mr.Request? {
          alive := EnsureRequestOf(w);
        }
        if !alive {
          return;
        }
      }
      return true;
    }
  }
}
