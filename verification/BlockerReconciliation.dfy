// Restated blockers take the wording already on file, so that none becomes a
// second row. What counts as a word, as lower case and as an issue key is left
// open: everything here holds for every choice of them.
module BlockerReconciliation {
  import opened Common

  datatype Prior = Prior(handle: string, description: string, issueKey: Option<string>)

  datatype Detail = Detail(description: string, issueKey: Option<string>)

  datatype Lexicon = Lexicon(words: string -> set<string>, lower: string -> string, key: string -> Option<string>)

  // ------------------------------------------------------------ scoring

  predicate StandsAt(needle: string, hay: string, i: int) {
    0 <= i <= |hay| - |needle| && hay[i..i + |needle|] == needle
  }

  predicate Within(needle: string, hay: string) {
    exists i :: 0 <= i <= |hay| && StandsAt(needle, hay, i)
  }

  predicate Contained(lex: Lexicon, a: string, b: string) {
    Within(lex.lower(a), lex.lower(b)) || Within(lex.lower(b), lex.lower(a))
  }

  // One text, in lower case, is a stretch of the other.
  lemma ContainedIff(lex: Lexicon, a: string, b: string)
    ensures Contained(lex, a, b) <==>
              || (exists x, y :: lex.lower(b) == x + lex.lower(a) + y)
              || (exists x, y :: lex.lower(a) == x + lex.lower(b) + y)
  {
    WithinIff(lex.lower(a), lex.lower(b));
    WithinIff(lex.lower(b), lex.lower(a));
  }

  lemma WithinIff(needle: string, hay: string)
    ensures Within(needle, hay) <==> exists x, y :: hay == x + needle + y
  {
    if Within(needle, hay) {
      var i :| 0 <= i <= |hay| && StandsAt(needle, hay, i);
      assert hay == hay[..i] + needle + hay[i + |needle|..];
    }
    if x, y :| hay == x + needle + y {
      assert StandsAt(needle, hay, |x|);
    }
  }

  function Overlap(lex: Lexicon, a: string, b: string): nat {
    |lex.words(a) * lex.words(b)|
  }

  function Score(lex: Lexicon, candidate: string, prior: Prior): nat {
    Overlap(lex, candidate, prior.description) + if Contained(lex, candidate, prior.description) then 2 else 0
  }

  predicate Eligible(lex: Lexicon, candidate: string, prior: Prior) {
    Overlap(lex, candidate, prior.description) >= 2 || Contained(lex, candidate, prior.description)
  }

  // The first eligible prior of maximal score.
  ghost predicate IsBest(lex: Lexicon, candidate: string, priors: seq<Prior>, n: nat) {
    && n < |priors| && Eligible(lex, candidate, priors[n])
    && (forall m :: 0 <= m < |priors| && Eligible(lex, candidate, priors[m]) ==>
          Score(lex, candidate, priors[m]) <= Score(lex, candidate, priors[n]))
    && (forall m :: 0 <= m < n && Eligible(lex, candidate, priors[m]) ==>
          Score(lex, candidate, priors[m]) < Score(lex, candidate, priors[n]))
  }

  ghost predicate BestAmong(lex: Lexicon, candidate: string, priors: seq<Prior>, r: Option<nat>) {
    && (r.None? <==> forall n :: 0 <= n < |priors| ==> !Eligible(lex, candidate, priors[n]))
    && (r.Some? ==> IsBest(lex, candidate, priors, r.value))
  }

  lemma BestSoFar(lex: Lexicon, candidate: string, priors: seq<Prior>, best: Option<nat>)
    requires priors != [] && BestAmong(lex, candidate, priors[..|priors| - 1], best)
    ensures var last := |priors| - 1;
            BestAmong(lex, candidate, priors,
                      if !Eligible(lex, candidate, priors[last]) then best
                      else if best.Some?
                              && Score(lex, candidate, priors[last]) <= Score(lex, candidate, priors[best.value])
                      then best
                      else Some(last))
  {
    hide Score, Eligible;
    var last := |priors| - 1;
    assert forall n :: 0 <= n < last ==> priors[..last][n] == priors[n];
  }

  function Match(lex: Lexicon, candidate: string, priors: seq<Prior>): (r: Option<nat>)
    ensures BestAmong(lex, candidate, priors, r)
    decreases |priors|
  {
    if priors == [] then None
    else
      var last := |priors| - 1;
      var best := Match(lex, candidate, priors[..last]);
      BestSoFar(lex, candidate, priors, best);
      if !Eligible(lex, candidate, priors[last]) then best
      else if best.Some? && Score(lex, candidate, priors[last]) <= Score(lex, candidate, priors[best.value]) then best
      else Some(last)
  }

  lemma BestIsUnique(lex: Lexicon, candidate: string, priors: seq<Prior>, n: nat)
    requires IsBest(lex, candidate, priors, n)
    ensures Match(lex, candidate, priors) == Some(n)
  {
    hide Score, Eligible;
    var r := Match(lex, candidate, priors);
    assert r.Some?;
    assert Score(lex, candidate, priors[r.value]) == Score(lex, candidate, priors[n]);
  }

  function Matched(lex: Lexicon, candidate: string, priors: seq<Prior>): Option<Prior> {
    var n := Match(lex, candidate, priors);
    if n.Some? then Some(priors[n.value]) else None
  }

  method MatchPrior(lex: Lexicon, candidate: string, priors: seq<Prior>) returns (best: Option<Prior>)
    ensures best == Matched(lex, candidate, priors)
  {
    hide Eligible, IsBest;
    best := None;
    var bestScore := 0;
    for n := 0 to |priors|
      invariant best == Matched(lex, candidate, priors[..n])
      invariant bestScore == if best.Some? then Score(lex, candidate, best.value) else 0
    {
      var prior := priors[n];
      var words := lex.words(candidate);
      var overlap := |words * lex.words(prior.description)|;
      var contained := Contained(lex, candidate, prior.description);
      var score := overlap + if contained then 2 else 0;
      MatchNext(lex, candidate, priors, n);
      if score > bestScore && (overlap >= 2 || contained) {
        best, bestScore := Some(prior), score;
      }
    }
    assert priors[..|priors|] == priors;
  }

  lemma MatchNext(lex: Lexicon, candidate: string, priors: seq<Prior>, n: nat)
    requires n < |priors|
    ensures var best := Matched(lex, candidate, priors[..n]);
            Matched(lex, candidate, priors[..n + 1]) ==
              if !Eligible(lex, candidate, priors[n]) then best
              else if best.Some? && Score(lex, candidate, priors[n]) <= Score(lex, candidate, best.value) then best
              else Some(priors[n])
    ensures Eligible(lex, candidate, priors[n]) <==>
              Overlap(lex, candidate, priors[n].description) >= 2 || Contained(lex, candidate, priors[n].description)
    ensures Eligible(lex, candidate, priors[n]) ==> Score(lex, candidate, priors[n]) > 0
  {
    assert priors[..n + 1][..n] == priors[..n];
  }

  // ------------------------------------------------------------ reconciling

  // The first of each, in order.
  function Firsts(s: seq<string>): (r: seq<string>)
    ensures forall d :: d in r <==> d in s
    ensures forall i, j :: 0 <= i < j < |r| ==> r[i] != r[j]
    ensures |r| <= |s| && (|r| == |s| ==> r == s)
  {
    if s == [] then []
    else
      var front, last := s[..|s| - 1], s[|s| - 1];
      assert s == front + [last];
      if last in Firsts(front) then Firsts(front) else Firsts(front) + [last]
  }

  lemma FirstsNext(s: seq<string>, d: string)
    ensures Firsts(s + [d]) == if d in s then Firsts(s) else Firsts(s) + [d]
  {
    assert (s + [d])[..|s|] == s;
  }

  lemma {:induction false} DistinctAreFirsts(s: seq<string>)
    requires forall i, j :: 0 <= i < j < |s| ==> s[i] != s[j]
    ensures Firsts(s) == s
  {
    if s != [] {
      hide Firsts;
      var front, last := s[..|s| - 1], s[|s| - 1];
      assert s == front + [last] && last !in front;
      DistinctAreFirsts(front);
      FirstsNext(front, last);
    }
  }

  function Rewrite(lex: Lexicon, candidate: string, priors: seq<Prior>): string {
    var prior := Matched(lex, candidate, priors);
    if prior.Some? then prior.value.description else candidate
  }

  function Keyed(lex: Lexicon, candidate: string, priors: seq<Prior>): Option<string> {
    var prior := Matched(lex, candidate, priors);
    if prior.Some? && prior.value.issueKey.Some? then prior.value.issueKey else lex.key(candidate)
  }

  function Rewrites(lex: Lexicon, candidates: seq<string>, priors: seq<Prior>): (r: seq<string>)
    ensures |r| == |candidates|
    ensures forall i :: 0 <= i < |r| ==> r[i] == Rewrite(lex, candidates[i], priors)
  {
    if candidates == [] then []
    else
      var last := |candidates| - 1;
      Rewrites(lex, candidates[..last], priors) + [Rewrite(lex, candidates[last], priors)]
  }

  function Descriptions(details: seq<Detail>): (r: seq<string>)
    ensures |r| == |details| && forall i :: 0 <= i < |r| ==> r[i] == details[i].description
  {
    if details == [] then []
    else Descriptions(details[..|details| - 1]) + [details[|details| - 1].description]
  }

  function Reconciled(lex: Lexicon, candidates: seq<string>, priors: seq<Prior>): (r: seq<Detail>)
    ensures Descriptions(r) == Firsts(Rewrites(lex, candidates, priors))
  {
    if candidates == [] then []
    else
      var last := |candidates| - 1;
      var front := Reconciled(lex, candidates[..last], priors);
      var description := Rewrite(lex, candidates[last], priors);
      RewritesNext(lex, candidates, priors, last);
      if description in Descriptions(front) then front
      else
        var more := front + [Detail(description, Keyed(lex, candidates[last], priors))];
        assert more[..|front|] == front;
        more
  }

  lemma RewritesNext(lex: Lexicon, candidates: seq<string>, priors: seq<Prior>, n: nat)
    requires n < |candidates|
    ensures Rewrites(lex, candidates[..n + 1], priors) ==
              Rewrites(lex, candidates[..n], priors) + [Rewrite(lex, candidates[n], priors)]
    ensures var all := Rewrites(lex, candidates[..n + 1], priors);
            && all[..|all| - 1] == Rewrites(lex, candidates[..n], priors)
            && all[|all| - 1] == Rewrite(lex, candidates[n], priors)
    ensures candidates[..n + 1] == candidates ==>
            Rewrites(lex, candidates[..n + 1], priors) == Rewrites(lex, candidates, priors)
  {
    assert candidates[..n + 1][..n] == candidates[..n];
  }

  lemma ReconciledNext(lex: Lexicon, candidates: seq<string>, priors: seq<Prior>, n: nat)
    requires n < |candidates|
    ensures var before, description := Reconciled(lex, candidates[..n], priors), Rewrite(lex, candidates[n], priors);
            Reconciled(lex, candidates[..n + 1], priors) ==
              if description in Descriptions(before) then before
              else before + [Detail(description, Keyed(lex, candidates[n], priors))]
  {
    assert candidates[..n + 1][..n] == candidates[..n];
  }

  lemma DescriptionsNext(details: seq<Detail>, detail: Detail)
    ensures Descriptions(details + [detail]) == Descriptions(details) + [detail.description]
  {
    assert (details + [detail])[..|details|] == details;
  }

  lemma NothingReconciled(lex: Lexicon, blockers: seq<string>, priors: seq<Prior>)
    ensures Reconciled(lex, blockers[..0], priors) == [] && Descriptions([]) == []
    ensures blockers[..|blockers|] == blockers
  {
  }

  method Reconcile(lex: Lexicon, blockers: seq<string>, priors: seq<Prior>) returns (details: seq<Detail>)
    ensures details == Reconciled(lex, blockers, priors)
  {
    NothingReconciled(lex, blockers, priors);
    hide Match, Matched, Rewrites, Firsts, Reconciled, Descriptions;
    details := [];
    var seen: set<string> := {};
    for n := 0 to |blockers|
      invariant details == Reconciled(lex, blockers[..n], priors)
      invariant forall d :: d in seen <==> d in Descriptions(details)
    {
      ReconciledNext(lex, blockers, priors, n);
      var prior := MatchPrior(lex, blockers[n], priors);
      var description := if prior.Some? then prior.value.description else blockers[n];
      if description in seen {
        continue;
      }
      seen := seen + {description};
      var key := if prior.Some? && prior.value.issueKey.Some? then prior.value.issueKey else lex.key(blockers[n]);
      DescriptionsNext(details, Detail(description, key));
      details := details + [Detail(description, key)];
    }
  }

  // ------------------------------------------------------------ what reconciling promises

  // Every blocker is reported exactly once, under its matched prior's wording
  // or its own; restatements of one prior share a row.
  lemma OneRowEach(lex: Lexicon, candidates: seq<string>, priors: seq<Prior>)
    ensures var rows := Descriptions(Reconciled(lex, candidates, priors));
            && (forall i, j :: 0 <= i < j < |rows| ==> rows[i] != rows[j])
            && (forall i :: 0 <= i < |candidates| ==> Rewrite(lex, candidates[i], priors) in rows)
            && (forall d :: d in rows ==> exists i :: 0 <= i < |candidates| && Rewrite(lex, candidates[i], priors) == d)
  {
    var all := Rewrites(lex, candidates, priors);
    forall i | 0 <= i < |candidates|
      ensures Rewrite(lex, candidates[i], priors) in all
    {
      assert all[i] in all;
    }
    forall d | d in all
      ensures exists i :: 0 <= i < |candidates| && Rewrite(lex, candidates[i], priors) == d
    {
      var i :| 0 <= i < |all| && all[i] == d;
    }
  }

  // ------------------------------------------------------------ reconciling again

  lemma ContainedInItself(lex: Lexicon, a: string)
    ensures Contained(lex, a, a)
  {
    var low := lex.lower(a);
    assert StandsAt(low, low, 0);
  }

  predicate OnFile(priors: seq<Prior>, wording: string) {
    exists k :: 0 <= k < |priors| && priors[k].description == wording
  }

  // The prior covers the other's wording: one contains the other, and no
  // distinctive word is missing.
  predicate Covers(lex: Lexicon, prior: Prior, wording: string) {
    Contained(lex, wording, prior.description) && lex.words(wording) <= lex.words(prior.description)
  }

  // The prior a wording on file goes to is the first that covers it.
  ghost predicate FirstCover(lex: Lexicon, wording: string, priors: seq<Prior>, n: nat) {
    && n < |priors| && Covers(lex, priors[n], wording)
    && (forall m :: 0 <= m < n ==> !Covers(lex, priors[m], wording))
  }

  lemma ScoreOfOwnWording(lex: Lexicon, wording: string, prior: Prior)
    ensures Score(lex, wording, prior) <= |lex.words(wording)| + 2
    ensures Score(lex, wording, prior) == |lex.words(wording)| + 2 <==> Covers(lex, prior, wording)
    ensures Covers(lex, prior, wording) ==> Eligible(lex, wording, prior)
  {
    var all, both := lex.words(wording), lex.words(wording) * lex.words(prior.description);
    Smaller(both, all);
    if both != all {
      assert !(all <= lex.words(prior.description));
    }
  }

  lemma Smaller(a: set<string>, b: set<string>)
    requires a <= b
    ensures |a| <= |b| && (|a| == |b| ==> a == b)
  {
    var rest := b - a;
    assert b == a + rest;
  }

  lemma WordingOnFileGoesToFirstCover(lex: Lexicon, wording: string, priors: seq<Prior>, n: nat)
    requires OnFile(priors, wording)
    ensures Match(lex, wording, priors) == Some(n) <==> FirstCover(lex, wording, priors, n)
  {
    hide Score, Eligible, Covers;
    forall m | 0 <= m < |priors|
      ensures Score(lex, wording, priors[m]) <= |lex.words(wording)| + 2
      ensures Score(lex, wording, priors[m]) == |lex.words(wording)| + 2 <==> Covers(lex, priors[m], wording)
      ensures Covers(lex, priors[m], wording) ==> Eligible(lex, wording, priors[m])
    {
      ScoreOfOwnWording(lex, wording, priors[m]);
    }
    var k :| 0 <= k < |priors| && priors[k].description == wording;
    CoversItself(lex, priors[k]);
    if FirstCover(lex, wording, priors, n) {
      BestIsUnique(lex, wording, priors, n);
    }
  }

  lemma CoversItself(lex: Lexicon, prior: Prior)
    ensures Covers(lex, prior, prior.description)
  {
    ContainedInItself(lex, prior.description);
  }

  // No other wording earlier on file covers this one.
  ghost predicate Unshadowed(lex: Lexicon, wording: string, priors: seq<Prior>) {
    forall n: nat :: FirstCover(lex, wording, priors, n) ==> priors[n].description == wording
  }

  lemma UnshadowedStays(lex: Lexicon, wording: string, priors: seq<Prior>)
    requires OnFile(priors, wording)
    ensures Rewrite(lex, wording, priors) == wording <==> Unshadowed(lex, wording, priors)
    ensures OnFile(priors, Rewrite(lex, wording, priors))
  {
    var k :| 0 <= k < |priors| && priors[k].description == wording;
    CoversItself(lex, priors[k]);
    ScoreOfOwnWording(lex, wording, priors[k]);
    var m := Match(lex, wording, priors);
    assert m.Some?;
    forall n: nat
      ensures m == Some(n) <==> FirstCover(lex, wording, priors, n)
    {
      WordingOnFileGoesToFirstCover(lex, wording, priors, n);
    }
  }

  lemma RewriteIsOnFileOrNew(lex: Lexicon, candidate: string, priors: seq<Prior>)
    ensures OnFile(priors, Rewrite(lex, candidate, priors)) || Rewrite(lex, candidate, priors) == candidate
    ensures Rewrite(lex, candidate, priors) == candidate || Matched(lex, candidate, priors).Some?
  {
  }

  // Rows stay as they are when reconciled again, exactly when no row's wording
  // on file is covered by a different wording earlier on file.
  lemma ReconcilingAgain(lex: Lexicon, candidates: seq<string>, priors: seq<Prior>)
    ensures var rows := Descriptions(Reconciled(lex, candidates, priors));
            Descriptions(Reconciled(lex, rows, priors)) == rows <==>
              forall d :: d in rows && OnFile(priors, d) ==> Unshadowed(lex, d, priors)
  {
    hide Unshadowed, OnFile, Rewrite, Reconciled, Firsts, Rewrites, Descriptions;
    var rows := Descriptions(Reconciled(lex, candidates, priors));
    var again := Rewrites(lex, rows, priors);
    OneRowEach(lex, candidates, priors);
    DistinctAreFirsts(rows);
    forall i | 0 <= i < |rows|
      ensures again[i] == rows[i] <==> (OnFile(priors, rows[i]) ==> Unshadowed(lex, rows[i], priors))
    {
      RowAgain(lex, candidates, priors, rows[i]);
    }
    assert Firsts(again) == rows ==> again == rows;
    assert (forall i :: 0 <= i < |rows| ==> again[i] == rows[i]) ==> again == rows;
    assert forall i :: 0 <= i < |rows| ==> rows[i] in rows;
  }

  lemma RowAgain(lex: Lexicon, candidates: seq<string>, priors: seq<Prior>, d: string)
    requires d in Descriptions(Reconciled(lex, candidates, priors))
    ensures Rewrite(lex, d, priors) == d <==> (OnFile(priors, d) ==> Unshadowed(lex, d, priors))
  {
    hide Unshadowed, OnFile, Rewrite, Reconciled;
    OneRowEach(lex, candidates, priors);
    if OnFile(priors, d) {
      UnshadowedStays(lex, d, priors);
    } else {
      var i :| 0 <= i < |candidates| && Rewrite(lex, candidates[i], priors) == d;
      RewriteIsOnFileOrNew(lex, candidates[i], priors);
    }
  }

  // Where no wording on file contains another, every wording survives a second pass.
  lemma ReconcilingTwice(lex: Lexicon, candidates: seq<string>, priors: seq<Prior>)
    requires forall i, j :: 0 <= i < |priors| && 0 <= j < |priors| && priors[i].description != priors[j].description ==>
               !Contained(lex, priors[i].description, priors[j].description)
    ensures var rows := Descriptions(Reconciled(lex, candidates, priors));
            Descriptions(Reconciled(lex, rows, priors)) == rows
  {
    hide Contained, Reconciled;
    ReconcilingAgain(lex, candidates, priors);
    forall d | OnFile(priors, d)
      ensures Unshadowed(lex, d, priors)
    {
    }
  }

  // The priors' own wording yields only the priors' wording.
  lemma WordingOnFileIsClosed(lex: Lexicon, candidates: seq<string>, priors: seq<Prior>)
    requires forall i :: 0 <= i < |candidates| ==> OnFile(priors, candidates[i])
    ensures forall d :: d in Descriptions(Reconciled(lex, candidates, priors)) ==> OnFile(priors, d)
  {
    hide OnFile, Rewrite, Reconciled;
    OneRowEach(lex, candidates, priors);
    forall d | d in Descriptions(Reconciled(lex, candidates, priors))
      ensures OnFile(priors, d)
    {
      var i :| 0 <= i < |candidates| && Rewrite(lex, candidates[i], priors) == d;
      UnshadowedStays(lex, candidates[i], priors);
    }
  }

  // A row has the wording and the key of one of the candidates.
  ghost predicate FromCandidate(lex: Lexicon, candidates: seq<string>, priors: seq<Prior>, row: Detail) {
    exists c :: c in candidates && row == Detail(Rewrite(lex, c, priors), Keyed(lex, c, priors))
  }

  lemma FromMoreCandidates(lex: Lexicon, candidates: seq<string>, priors: seq<Prior>, row: Detail)
    requires candidates != []
    ensures var front, last := candidates[..|candidates| - 1], candidates[|candidates| - 1];
            FromCandidate(lex, front, priors, row)
            || row == Detail(Rewrite(lex, last, priors), Keyed(lex, last, priors)) ==>
              FromCandidate(lex, candidates, priors, row)
  {
    hide Rewrite, Keyed;
    assert candidates == candidates[..|candidates| - 1] + [candidates[|candidates| - 1]];
  }

  lemma {:induction false} RowsComeFromCandidates(lex: Lexicon, candidates: seq<string>, priors: seq<Prior>,
      row: Detail)
    requires row in Reconciled(lex, candidates, priors)
    ensures FromCandidate(lex, candidates, priors, row)
  {
    hide *;
    assert candidates[..0] == [];
    NothingReconciled(lex, candidates, priors);
    if candidates != [] {
      var last := |candidates| - 1;
      assert candidates[..last + 1] == candidates;
      ReconciledNext(lex, candidates, priors, last);
      FromMoreCandidates(lex, candidates, priors, row);
      if row in Reconciled(lex, candidates[..last], priors) {
        RowsComeFromCandidates(lex, candidates[..last], priors, row);
      }
    }
  }

  lemma {:induction false} SettledRows(lex: Lexicon, wordings: seq<string>, priors: seq<Prior>)
    requires forall i, j :: 0 <= i < j < |wordings| ==> wordings[i] != wordings[j]
    requires forall i :: 0 <= i < |wordings| ==> Rewrite(lex, wordings[i], priors) == wordings[i]
    ensures var rows := Reconciled(lex, wordings, priors);
            && |rows| == |wordings|
            && forall i :: 0 <= i < |rows| ==> rows[i] == Detail(wordings[i], Keyed(lex, wordings[i], priors))
  {
    hide *;
    NothingReconciled(lex, wordings, priors);
    if wordings == [] {
      assert wordings[..0] == wordings;
    } else {
      var last := |wordings| - 1;
      var front := wordings[..last];
      assert wordings[..last + 1] == wordings;
      assert forall i :: 0 <= i < last ==> front[i] == wordings[i];
      SettledRows(lex, front, priors);
      ReconciledNext(lex, wordings, priors, last);
      SettledDescriptions(lex, front, priors, Reconciled(lex, front, priors));
      assert wordings[last] !in front;
    }
  }

  lemma SettledDescriptions(lex: Lexicon, wordings: seq<string>, priors: seq<Prior>, rows: seq<Detail>)
    requires |rows| == |wordings|
    requires forall i :: 0 <= i < |rows| ==> rows[i] == Detail(wordings[i], Keyed(lex, wordings[i], priors))
    ensures Descriptions(rows) == wordings
  {
    hide Keyed;
  }

  // Reconciled again, the row finds its own wording and its own key: whatever
  // is first on file to cover it has that wording, and its key, or for want of
  // one the key in the wording, is the row's.
  ghost predicate RowStays(lex: Lexicon, row: Detail, priors: seq<Prior>) {
    OnFile(priors, row.description) ==>
      forall n: nat :: FirstCover(lex, row.description, priors, n) ==>
        && priors[n].description == row.description
        && row.issueKey == if priors[n].issueKey.Some? then priors[n].issueKey else lex.key(row.description)
  }

  lemma FiledRowStays(lex: Lexicon, row: Detail, priors: seq<Prior>)
    requires OnFile(priors, row.description)
    ensures RowStays(lex, row, priors) <==>
              Unshadowed(lex, row.description, priors) && row.issueKey == Keyed(lex, row.description, priors)
  {
    hide FirstCover, OnFile;
    var wording := row.description;
    UnshadowedStays(lex, wording, priors);
    FiledIsMatched(lex, wording, priors);
    var m := Match(lex, wording, priors);
    WordingOnFileGoesToFirstCover(lex, wording, priors, m.value);
    forall n: nat
      ensures FirstCover(lex, wording, priors, n) <==> n == m.value
    {
      WordingOnFileGoesToFirstCover(lex, wording, priors, n);
    }
  }

  lemma FiledIsMatched(lex: Lexicon, wording: string, priors: seq<Prior>)
    requires OnFile(priors, wording)
    ensures Match(lex, wording, priors).Some?
  {
    var k :| 0 <= k < |priors| && priors[k].description == wording;
    CoversItself(lex, priors[k]);
    ScoreOfOwnWording(lex, wording, priors[k]);
  }

  // A row that is not on file is a candidate's own wording, with the key in it.
  lemma NewRowStays(lex: Lexicon, candidates: seq<string>, priors: seq<Prior>, row: Detail)
    requires row in Reconciled(lex, candidates, priors) && !OnFile(priors, row.description)
    ensures row.issueKey == Keyed(lex, row.description, priors)
    ensures Rewrite(lex, row.description, priors) == row.description
  {
    hide Reconciled, OnFile;
    RowsComeFromCandidates(lex, candidates, priors, row);
    var c :| c in candidates && row == Detail(Rewrite(lex, c, priors), Keyed(lex, c, priors));
    RewriteIsOnFileOrNew(lex, c, priors);
  }

  lemma RowStaysIff(lex: Lexicon, candidates: seq<string>, priors: seq<Prior>, row: Detail)
    requires row in Reconciled(lex, candidates, priors)
    ensures RowStays(lex, row, priors) <==>
              && Rewrite(lex, row.description, priors) == row.description
              && row.issueKey == Keyed(lex, row.description, priors)
  {
    if OnFile(priors, row.description) {
      hide OnFile, Rewrite, Reconciled, Keyed, RowStays, Unshadowed;
      FiledRowStays(lex, row, priors);
      UnshadowedStays(lex, row.description, priors);
    } else {
      NewRowStays(lex, candidates, priors, row);
    }
  }

  lemma RowIsThere(rows: seq<Detail>, i: nat)
    requires i < |rows|
    ensures rows[i] in rows && rows[i].description == Descriptions(rows)[i]
    ensures rows[i].description in Descriptions(rows)
  {
    assert Descriptions(rows)[i] in Descriptions(rows);
  }

  // Rows stay as they are, wording and key, when reconciled again exactly when
  // each finds itself.
  lemma RowsReconciledAgain(lex: Lexicon, candidates: seq<string>, priors: seq<Prior>)
    ensures var rows := Reconciled(lex, candidates, priors);
            Reconciled(lex, Descriptions(rows), priors) == rows <==>
              forall i :: 0 <= i < |rows| ==> RowStays(lex, rows[i], priors)
  {
    hide Reconciled, Rewrite, Keyed, RowStays, OnFile, Unshadowed, Descriptions, Rewrites, Firsts;
    var rows := Reconciled(lex, candidates, priors);
    var wordings := Descriptions(rows);
    OneRowEach(lex, candidates, priors);
    forall i | 0 <= i < |rows|
      ensures rows[i].description == wordings[i]
      ensures RowStays(lex, rows[i], priors) <==>
                Rewrite(lex, wordings[i], priors) == wordings[i] && rows[i].issueKey == Keyed(lex, wordings[i], priors)
      ensures Rewrite(lex, wordings[i], priors) == wordings[i] <==>
                (OnFile(priors, wordings[i]) ==> Unshadowed(lex, wordings[i], priors))
    {
      RowIsThere(rows, i);
      RowStaysIff(lex, candidates, priors, rows[i]);
      RowAgain(lex, candidates, priors, wordings[i]);
    }
    ReconcilingAgain(lex, candidates, priors);
    if forall i :: 0 <= i < |rows| ==> Rewrite(lex, wordings[i], priors) == wordings[i] {
      SettledRows(lex, wordings, priors);
    } else {
      var i :| 0 <= i < |rows| && Rewrite(lex, wordings[i], priors) != wordings[i];
      RowIsThere(rows, i);
    }
  }

  // What the expressions of the code find in the two texts below.
  function WordsIn(text: string): set<string> {
    if text == "PAY-7 sandbox down" then {"pay-7", "sandbox", "down"}
    else if text == "sandbox" then {"sandbox"} else {}
  }

  function Lower(text: string): string {
    if text == "PAY-7 sandbox down" then "pay-7 sandbox down" else text
  }

  function OneKey(text: string): Option<string> {
    if text == "PAY-7 sandbox down" then Some("PAY-7") else None
  }

  const TWO_TEXTS := Lexicon(WordsIn, Lower, OneKey)

  // The wording survives a second pass; a key only the restatement had does not.
  lemma KeyLostOnTheSecondPass()
    ensures var prior := Prior("B1", "sandbox", None);
            var rows := Reconciled(TWO_TEXTS, ["PAY-7 sandbox down"], [prior]);
            && rows == [Detail("sandbox", Some("PAY-7"))]
            && Reconciled(TWO_TEXTS, Descriptions(rows), [prior]) == [Detail("sandbox", None)]
  {
    var prior, said := Prior("B1", "sandbox", None), "PAY-7 sandbox down";
    assert StandsAt("sandbox", Lower(said), 6);
    OnlyPrior(TWO_TEXTS, said, prior);
    ContainedInItself(TWO_TEXTS, "sandbox");
    OnlyPrior(TWO_TEXTS, "sandbox", prior);
    assert Descriptions([Detail("sandbox", Some("PAY-7"))]) == ["sandbox"];
  }

  lemma OnlyPrior(lex: Lexicon, candidate: string, prior: Prior)
    requires Eligible(lex, candidate, prior)
    ensures Reconciled(lex, [candidate], [prior]) ==
              [Detail(prior.description, if prior.issueKey.Some? then prior.issueKey else lex.key(candidate))]
  {
    BestIsUnique(lex, candidate, [prior], 0);
    assert [candidate][..0] == [];
  }

  // ------------------------------------------------------------ reading a reply

  // A sentence of a reply: whether it says something is cleared, and the
  // blocker each of its clauses opens, if any.
  datatype Sentence = Sentence(text: string, clears: bool, clauses: seq<Option<string>>)

  function Opened(clauses: seq<Option<string>>): seq<string> {
    if clauses == [] then []
    else
      var front := Opened(clauses[..|clauses| - 1]);
      match clauses[|clauses| - 1]
      case Some(blocker) => if blocker == "" then front else front + [blocker]
      case None => front
  }

  function OpenedBy(reply: seq<Sentence>): seq<string> {
    if reply == [] then []
    else
      var last := reply[|reply| - 1];
      OpenedBy(reply[..|reply| - 1]) + if last.clears then [] else Opened(last.clauses)
  }

  lemma OpenedNext(reply: seq<Sentence>, n: nat, k: nat)
    requires n < |reply| && k < |reply[n].clauses|
    ensures var clauses := reply[n].clauses;
            var before, clause := OpenedBy(reply[..n]) + Opened(clauses[..k]), clauses[k];
            OpenedBy(reply[..n]) + Opened(clauses[..k + 1]) ==
              if clause.Some? && clause.value != "" then before + [clause.value] else before
  {
    assert reply[n].clauses[..k + 1][..k] == reply[n].clauses[..k];
  }

  lemma OpenedByNext(reply: seq<Sentence>, n: nat)
    requires n < |reply|
    ensures var before := OpenedBy(reply[..n]);
            && OpenedBy(reply[..n + 1]) == before + (if reply[n].clears then [] else Opened(reply[n].clauses))
            && before + [] == before && Opened([]) == []
  {
    assert reply[..n + 1][..n] == reply[..n];
  }

  // One blocker per clause, each once, in the order they are mentioned; a
  // sentence that clears something opens nothing.
  method ExtractBlockers(reply: seq<Sentence>) returns (blockers: seq<string>)
    ensures blockers == Firsts(OpenedBy(reply))
  {
    blockers := [];
    for n := 0 to |reply|
      invariant blockers == Firsts(OpenedBy(reply[..n]))
    {
      hide Firsts, OpenedBy, Opened;
      OpenedByNext(reply, n);
      if reply[n].clears {
        continue;
      }
      var clauses := reply[n].clauses;
      assert clauses[..0] == [];
      for k := 0 to |clauses|
        invariant blockers == Firsts(OpenedBy(reply[..n]) + Opened(clauses[..k]))
      {
        OpenedNext(reply, n, k);
        if clauses[k].Some? && clauses[k].value != "" {
          FirstsNext(OpenedBy(reply[..n]) + Opened(clauses[..k]), clauses[k].value);
          if clauses[k].value !in blockers {
            blockers := blockers + [clauses[k].value];
          }
        }
      }
      assert clauses[..|clauses|] == clauses;
    }
    assert reply[..|reply|] == reply;
  }

  function Cleared(lex: Lexicon, reply: seq<Sentence>, priors: seq<Prior>): seq<string> {
    if reply == [] then []
    else
      var front, last := Cleared(lex, reply[..|reply| - 1], priors), reply[|reply| - 1];
      var prior := Matched(lex, last.text, priors);
      if last.clears && prior.Some? then front + [prior.value.handle] else front
  }

  // The handles cleared are those of the clearing sentences' best matches, each once.
  method ResolvedHandles(lex: Lexicon, reply: seq<Sentence>, priors: seq<Prior>) returns (handles: seq<string>)
    ensures handles == Firsts(Cleared(lex, reply, priors))
  {
    hide Match;
    handles := [];
    for n := 0 to |reply|
      invariant handles == Firsts(Cleared(lex, reply[..n], priors))
    {
      assert reply[..n + 1][..n] == reply[..n];
      if !reply[n].clears {
        continue;
      }
      var prior := MatchPrior(lex, reply[n].text, priors);
      if prior.Some? {
        ghost var front := Cleared(lex, reply[..n], priors);
        assert (front + [prior.value.handle])[..|front|] == front;
        if prior.value.handle !in handles {
          handles := handles + [prior.value.handle];
        }
      }
    }
    assert reply[..|reply|] == reply;
  }

  lemma {:induction false} ClearedIff(lex: Lexicon, reply: seq<Sentence>, priors: seq<Prior>, handle: string)
    ensures handle in Cleared(lex, reply, priors) <==>
              exists n :: 0 <= n < |reply| && reply[n].clears && Matched(lex, reply[n].text, priors).Some? &&
                          Matched(lex, reply[n].text, priors).value.handle == handle
  {
    if reply != [] {
      var front := reply[..|reply| - 1];
      ClearedIff(lex, front, priors, handle);
      assert forall n :: 0 <= n < |front| ==> front[n] == reply[n];
    }
  }
}
