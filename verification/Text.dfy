// Strings as the Python code handles them: trimming, splitting, joining and
// the lexicographic order of `<` on str.
module Text {

  // The code points for which Python's str.isspace() holds.
  predicate IsSpace(c: char) {
    var n := c as int;
    || 0x09 <= n <= 0x0d
    || 0x1c <= n <= 0x20
    || n == 0x85 || n == 0xa0 || n == 0x1680
    || 0x2000 <= n <= 0x200a
    || n == 0x2028 || n == 0x2029 || n == 0x202f || n == 0x205f || n == 0x3000
  }

  predicate Trimmed(s: string) {
    s != "" ==> !IsSpace(s[0]) && !IsSpace(s[|s| - 1])
  }

  function LStrip(s: string): (r: string)
    ensures |r| <= |s| && r == s[|s| - |r|..]
    ensures r != "" ==> !IsSpace(r[0])
    ensures forall i :: 0 <= i < |s| - |r| ==> IsSpace(s[i])
  {
    if s != "" && IsSpace(s[0]) then LStrip(s[1..]) else s
  }

  function RStrip(s: string): (r: string)
    ensures |r| <= |s| && r == s[..|r|]
    ensures r != "" ==> !IsSpace(r[|r| - 1])
    ensures forall i :: |r| <= i < |s| ==> IsSpace(s[i])
  {
    if s != "" && IsSpace(s[|s| - 1]) then RStrip(s[..|s| - 1]) else s
  }

  function Strip(s: string): (r: string)
    ensures Trimmed(r)
    ensures Trimmed(s) ==> r == s
    ensures forall c :: c in r ==> c in s
  {
    RStrip(LStrip(s))
  }

  // s.find(c), with |s| for "not found".
  function Find(c: char, s: string): (i: nat)
    ensures i <= |s|
    ensures c !in s[..i]
    ensures i < |s| ==> s[i] == c
    ensures c in s <==> i < |s|
  {
    if s == "" || s[0] == c then 0 else 1 + Find(c, s[1..])
  }

  // The first c of a concatenation whose head holds none.
  lemma FindAfter(c: char, head: string, tail: string)
    requires c !in head
    ensures Find(c, head + [c] + tail) == |head|
  {
    var s := head + [c] + tail;
    var i := Find(c, s);
    assert s[|head|] == c;
    assert forall k :: 0 <= k < |head| ==> s[k] == head[k] && s[k] != c;
    assert forall k :: 0 <= k < i ==> s[k] == s[..i][k] && s[k] != c;
  }

  // s.split(c)
  function Split(c: char, s: string): (parts: seq<string>)
    ensures |parts| >= 1
    ensures forall p :: p in parts ==> c !in p
    decreases |s|
  {
    var i := Find(c, s);
    if i == |s| then [s] else [s[..i]] + Split(c, s[i + 1..])
  }

  // c.join(parts)
  function Join(c: char, parts: seq<string>): string {
    if |parts| == 0 then ""
    else if |parts| == 1 then parts[0]
    else parts[0] + [c] + Join(c, parts[1..])
  }

  lemma SplitCons(c: char, head: string, tail: string)
    requires c !in head
    ensures Split(c, head + [c] + tail) == [head] + Split(c, tail)
  {
    var s := head + [c] + tail;
    FindAfter(c, head, tail);
    assert s[..|head|] == head && s[|head| + 1..] == tail;
  }

  lemma {:induction false} SplitJoin(c: char, parts: seq<string>)
    requires |parts| >= 1
    requires forall p :: p in parts ==> c !in p
    ensures Split(c, Join(c, parts)) == parts
  {
    if |parts| == 1 {
      assert parts == [parts[0]];
    } else {
      var rest := parts[1..];
      SplitJoin(c, rest);
      SplitCons(c, parts[0], Join(c, rest));
      assert parts == [parts[0]] + rest;
    }
  }

  lemma JoinCons(c: char, head: string, parts: seq<string>)
    requires parts != []
    ensures Join(c, [head] + parts) == head + [c] + Join(c, parts)
  {
    assert ([head] + parts)[1..] == parts;
  }

  lemma SplitUnfolds(c: char, s: string)
    ensures var i := Find(c, s);
            Split(c, s) == if i == |s| then [s] else [s[..i]] + Split(c, s[i + 1..])
  {
    hide Find;
  }

  lemma Around(s: string, n: nat)
    requires n < |s|
    ensures s[n..] != "" && s[n..][0] == s[n] && s[n..][1..] == s[n + 1..]
    ensures s == s[..n] + [s[n]] + s[n + 1..]
  {
  }

  lemma {:induction false} JoinSplit(c: char, s: string)
    ensures Join(c, Split(c, s)) == s
    decreases |s|
  {
    hide *;
    var i := Find(c, s);
    SplitUnfolds(c, s);
    if i < |s| {
      JoinSplit(c, s[i + 1..]);
      JoinCons(c, s[..i], Split(c, s[i + 1..]));
      Around(s, i);
    } else {
      JoinOne(c, s);
    }
  }

  lemma JoinOne(c: char, s: string)
    ensures Join(c, [s]) == s
  {
  }

  ghost predicate Holds(whole: string, part: string) {
    exists before, after :: whole == before + part + after
  }

  // Every part is in the join, whole.
  lemma {:induction false} JoinHolds(c: char, parts: seq<string>, i: nat)
    requires i < |parts|
    ensures Holds(Join(c, parts), parts[i])
    decreases |parts|
  {
    if |parts| == 1 {
      assert Join(c, parts) == "" + parts[0] + "";
    } else if i == 0 {
      assert Join(c, parts) == "" + parts[0] + ([c] + Join(c, parts[1..]));
    } else {
      JoinHolds(c, parts[1..], i - 1);
      var before, after :| Join(c, parts[1..]) == before + parts[i] + after;
      assert Join(c, parts) == (parts[0] + [c] + before) + parts[i] + after;
    }
  }

  // " ".join(s.split())
  function Clean(s: string): string
    decreases |s|
  {
    var t := LStrip(s);
    if t == "" then ""
    else
      var n := FirstSpace(t);
      var rest := Clean(t[n..]);
      if rest == "" then t[..n] else t[..n] + " " + rest
  }

  function FirstSpace(s: string): (n: nat)
    ensures n <= |s|
    ensures s != "" && !IsSpace(s[0]) ==> n > 0
    ensures forall i :: 0 <= i < n ==> !IsSpace(s[i])
    ensures n < |s| ==> IsSpace(s[n])
  {
    if s == "" || IsSpace(s[0]) then 0 else 1 + FirstSpace(s[1..])
  }

  // a < b on Python strings.
  predicate Less(a: string, b: string) {
    b != "" && (a == "" || a[0] < b[0] || (a[0] == b[0] && Less(a[1..], b[1..])))
  }

  lemma {:induction false} LessTotal(a: string, b: string)
    ensures Less(a, b) || Less(b, a) || a == b
    ensures !(Less(a, b) && Less(b, a))
    ensures a == b ==> !Less(a, b)
  {
    if a != "" && b != "" {
      LessTotal(a[1..], b[1..]);
      if a[0] == b[0] && a[1..] == b[1..] {
        assert a == [a[0]] + a[1..] && b == [b[0]] + b[1..];
      }
    }
  }

  lemma {:induction false} LessTransitive(a: string, b: string, c: string)
    requires Less(a, b) && Less(b, c)
    ensures Less(a, c)
  {
    if a != "" && a[0] == b[0] && b[0] == c[0] {
      LessTransitive(a[1..], b[1..], c[1..]);
    }
  }

  lemma {:induction false} LessBehind(head: string, a: string, b: string)
    ensures Less(a, b) ==> Less(head + a, head + b)
  {
    if head == "" {
      assert head + a == a && head + b == b;
    } else {
      LessBehind(head[1..], a, b);
      assert (head + a)[1..] == head[1..] + a && (head + b)[1..] == head[1..] + b;
    }
  }

  // ------------------------------------------------------------ cleaned texts

  // One space between words and none around them.
  ghost predicate IsClean(s: string) {
    && Trimmed(s)
    && (forall i :: 0 <= i < |s| && IsSpace(s[i]) ==> s[i] == ' ')
    && (forall i :: 0 <= i < |s| - 1 && IsSpace(s[i]) ==> !IsSpace(s[i + 1]))
  }

  function Visible(s: string): string {
    if s == "" then ""
    else if IsSpace(s[0]) then Visible(s[1..])
    else [s[0]] + Visible(s[1..])
  }

  lemma WordThenClean(word: string, rest: string)
    requires word != "" && (forall i :: 0 <= i < |word| ==> !IsSpace(word[i]))
    requires IsClean(rest) && rest != ""
    ensures IsClean(word + " " + rest)
  {
    assert IsSpace(' ');
    hide IsSpace;
    var s := word + " " + rest;
    var n := |word|;
    assert s[n] == ' ' && s[|s| - 1] == rest[|rest| - 1] && s[n + 1] == rest[0];
    forall i | 0 <= i < |s| && IsSpace(s[i])
      ensures s[i] == ' ' && (i < |s| - 1 ==> !IsSpace(s[i + 1]))
    {
      if i > n {
        assert s[i] == rest[i - n - 1] && (i < |s| - 1 ==> s[i + 1] == rest[i - n]);
      }
    }
  }

  lemma CleanUnfolds(s: string)
    ensures var t := LStrip(s);
            var n := FirstSpace(t);
            Clean(s) == if t == "" then "" else if Clean(t[n..]) == "" then t[..n] else t[..n] + " " + Clean(t[n..])
    ensures s != "" && !IsSpace(s[0]) ==> LStrip(s) == s
  {
  }

  lemma CleanOfSpace(s: string)
    requires s != "" && IsSpace(s[0])
    ensures Clean(s) == Clean(s[1..])
  {
    hide IsSpace;
    assert LStrip(s) == LStrip(s[1..]);
  }

  // What follows a space of a clean text.
  lemma RestIsClean(s: string, n: nat)
    requires IsClean(s) && n < |s| && IsSpace(s[n])
    ensures s[n] == ' ' && s[n + 1..] != "" && IsClean(s[n + 1..])
  {
    hide IsSpace;
    var rest := s[n + 1..];
    assert n < |s| - 1;
    assert forall i :: 0 <= i < |rest| ==> rest[i] == s[n + 1 + i];
  }

  lemma AfterSpace(s: string, n: nat)
    requires IsClean(s) && n < |s| && IsSpace(s[n])
    ensures var rest := s[n + 1..];
            rest != "" && IsClean(rest) && Clean(s[n..]) == Clean(rest) && s == s[..n] + " " + rest
  {
    hide *;
    RestIsClean(s, n);
    Around(s, n);
    CleanOfSpace(s[n..]);
  }

  lemma StartsWithWord(s: string)
    requires IsClean(s) && s != ""
    ensures var n := FirstSpace(s);
            && Clean(s) == (if Clean(s[n..]) == "" then s[..n] else s[..n] + " " + Clean(s[n..]))
            && (n == |s| ==> s[n..] == "" && s[..n] == s)
            && (n < |s| ==> IsSpace(s[n]))
  {
    assert !IsSpace(s[0]);
    hide *;
    CleanUnfolds(s);
    Whole(s);
  }

  lemma Whole(s: string)
    ensures s[|s|..] == "" && s[..|s|] == s
  {
  }

  lemma {:induction false} CleanStays(s: string)
    requires IsClean(s)
    ensures Clean(s) == s
    decreases |s|
  {
    hide *;
    NothingIsClean();
    if s != "" {
      var n := FirstSpace(s);
      StartsWithWord(s);
      if n < |s| {
        AfterSpace(s, n);
        CleanStays(s[n + 1..]);
      }
    }
  }

  lemma NothingIsClean()
    ensures Clean("") == ""
  {
  }

  lemma VisibleCons(c: char, rest: string)
    ensures Visible([c] + rest) == (if IsSpace(c) then "" else [c]) + Visible(rest)
  {
    assert ([c] + rest)[1..] == rest;
  }

  lemma {:induction false} VisibleConcat(a: string, b: string)
    ensures Visible(a + b) == Visible(a) + Visible(b)
  {
    hide *;
    NothingVisible();
    if a == "" {
      assert a + b == b;
    } else {
      var rest := a[1..];
      VisibleConcat(rest, b);
      VisibleCons(a[0], rest);
      VisibleCons(a[0], rest + b);
      assert a == [a[0]] + rest;
      assert a + b == [a[0]] + (rest + b);
    }
  }

  lemma {:induction false} WordIsVisible(word: string)
    requires forall i :: 0 <= i < |word| ==> !IsSpace(word[i])
    ensures Visible(word) == word
  {
    hide IsSpace;
    if word != "" {
      WordIsVisible(word[1..]);
    }
  }

  lemma {:induction false} LStripKeepsVisible(s: string)
    ensures Visible(LStrip(s)) == Visible(s)
  {
    hide IsSpace;
    if s != "" && IsSpace(s[0]) {
      LStripKeepsVisible(s[1..]);
    }
  }

  // The first word and what follows it.
  lemma FirstWord(s: string) returns (word: string, more: string)
    requires LStrip(s) != ""
    ensures word != "" && |more| < |s| && Visible(s) == word + Visible(more)
    ensures forall i :: 0 <= i < |word| ==> !IsSpace(word[i])
    ensures Clean(s) == if Clean(more) == "" then word else word + " " + Clean(more)
  {
    hide IsSpace, Visible, Clean;
    var t := LStrip(s);
    var n := FirstSpace(t);
    word, more := t[..n], t[n..];
    assert t == word + more;
    CleanUnfolds(s);
    LStripKeepsVisible(s);
    VisibleConcat(word, more);
    WordIsVisible(word);
  }

  lemma OnlySpace(s: string)
    requires LStrip(s) == ""
    ensures Clean(s) == "" && Visible(s) == "" && IsClean("")
  {
    LStripKeepsVisible(s);
  }

  lemma {:induction false} CleanIsClean(s: string)
    ensures IsClean(Clean(s))
    decreases |s|
  {
    hide IsSpace, Clean, IsClean;
    if LStrip(s) == "" {
      OnlySpace(s);
    } else {
      var word, more := FirstWord(s);
      CleanIsClean(more);
      if Clean(more) == "" {
        WordIsClean(word);
      } else {
        WordThenClean(word, Clean(more));
      }
    }
  }

  lemma WordIsClean(word: string)
    requires forall i :: 0 <= i < |word| ==> !IsSpace(word[i])
    ensures IsClean(word)
  {
  }

  // Cleaning takes away no character but spaces.
  lemma {:induction false} CleanKeepsVisible(s: string)
    ensures Visible(Clean(s)) == Visible(s)
    decreases |s|
  {
    hide IsSpace, Clean, Visible;
    if LStrip(s) == "" {
      OnlySpace(s);
      NothingVisible();
    } else {
      var word, more := FirstWord(s);
      CleanKeepsVisible(more);
      WordIsVisible(word);
      if Clean(more) == "" {
        NothingVisible();
        assert word + "" == word;
      } else {
        NothingVisible();
        VisibleConcat(word, " ");
        VisibleConcat(word + " ", Clean(more));
        assert word + "" == word;
      }
    }
  }

  lemma NothingVisible()
    ensures Visible("") == "" && Visible(" ") == ""
  {
    assert IsSpace(' ');
  }

  // Texts that are clean already, and no others, are left as they are.
  lemma CleanStaysIff(s: string)
    ensures Clean(s) == s <==> IsClean(s)
  {
    hide Clean, IsClean;
    CleanIsClean(s);
    if IsClean(s) {
      CleanStays(s);
    }
  }
}
