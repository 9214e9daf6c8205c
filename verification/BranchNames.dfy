// Branch names made from issue keys, and the search that finds the key again.
module BranchNames {
  import opened Common
  import Decimal

  predicate IsSlugChar(c: char) {
    'a' <= c <= 'z' || '0' <= c <= '9'
  }

  predicate NoDoubleDash(s: string) {
    forall i :: 0 < i < |s| && s[i] == '-' ==> s[i - 1] != '-'
  }

  lemma SliceHasNoDoubleDash(s: string, a: nat, b: nat)
    requires a <= b <= |s| && NoDoubleDash(s)
    ensures NoDoubleDash(s[a..b])
  {
    forall i | 0 < i < b - a && s[a..b][i] == '-'
      ensures s[a..b][i - 1] != '-'
    {
      assert s[a + i] == '-';
    }
  }

  // Runs of other characters become one dash; open means the run just before
  // s has already put its dash down.
  function Dashed(s: string, open: bool): (r: string)
    ensures forall c :: c in r ==> IsSlugChar(c) || c == '-'
    ensures NoDoubleDash(r)
    ensures open && r != "" ==> r[0] != '-'
  {
    if s == "" then ""
    else if IsSlugChar(s[0]) then [s[0]] + Dashed(s[1..], false)
    else if open then Dashed(s[1..], true)
    else "-" + Dashed(s[1..], true)
  }

  function RStripDash(s: string): (r: string)
    ensures |r| <= |s| && r == s[..|r|]
    ensures r != "" ==> r[|r| - 1] != '-'
    ensures forall i :: |r| <= i < |s| ==> s[i] == '-'
    ensures s == "" || s[|s| - 1] != '-' ==> r == s
  {
    if s != "" && s[|s| - 1] == '-' then RStripDash(s[..|s| - 1]) else s
  }

  function LStripDash(s: string): (r: string)
    ensures |r| <= |s| && r == s[|s| - |r|..]
    ensures r != "" ==> r[0] != '-'
    ensures forall i :: 0 <= i < |s| - |r| ==> s[i] == '-'
    ensures s == "" || s[0] != '-' ==> r == s
  {
    if s != "" && s[0] == '-' then LStripDash(s[1..]) else s
  }

  function Cut(s: string): string {
    if |s| > 32 then s[..32] else s
  }

  // re.sub(r"[^a-z0-9]+", "-", lowered).strip("-")[:32].rstrip("-")
  function Slug(lowered: string): string {
    RStripDash(Cut(RStripDash(LStripDash(Dashed(lowered, false)))))
  }

  ghost predicate IsSlug(s: string) {
    && |s| <= 32
    && (forall c :: c in s ==> IsSlugChar(c) || c == '-')
    && NoDoubleDash(s)
    && (s != "" ==> s[0] != '-' && s[|s| - 1] != '-')
  }

  lemma SlugIsASlug(lowered: string)
    ensures IsSlug(Slug(lowered))
  {
    var dashed := Dashed(lowered, false);
    var left := LStripDash(dashed);
    var stripped := RStripDash(left);
    var cut := Cut(stripped);
    var slug := RStripDash(cut);
    hide Dashed, LStripDash, RStripDash, NoDoubleDash, IsSlugChar;
    SliceHasNoDoubleDash(dashed, |dashed| - |left|, |dashed|);
    assert left == dashed[|dashed| - |left|..|dashed|];
    assert slug == left[0..|slug|];
    SliceHasNoDoubleDash(left, 0, |slug|);
    assert forall c :: c in slug ==> c in dashed;
  }

  lemma {:induction false} DashedStays(s: string, open: bool)
    requires (forall c :: c in s ==> IsSlugChar(c) || c == '-') && NoDoubleDash(s)
    requires open && s != "" ==> s[0] != '-'
    ensures Dashed(s, open) == s
  {
    if s != "" {
      SliceHasNoDoubleDash(s, 1, |s|);
      DashedStays(s[1..], s[0] == '-');
      assert s == [s[0]] + s[1..];
    }
  }

  lemma SlugStays(s: string)
    requires IsSlug(s)
    ensures Slug(s) == s
  {
    hide Dashed, LStripDash, RStripDash, NoDoubleDash, IsSlugChar;
    DashedStays(s, false);
  }

  // Slugs, and no other texts, are their own slug.
  lemma SlugStaysIff(s: string)
    ensures Slug(s) == s <==> IsSlug(s)
  {
    hide Slug, IsSlug;
    SlugIsASlug(s);
    if IsSlug(s) {
      SlugStays(s);
    }
  }

  // A text's letters and digits.
  function Letters(s: string): (r: string)
    ensures |r| <= |s|
  {
    if s == "" then ""
    else if IsSlugChar(s[0]) then [s[0]] + Letters(s[1..])
    else Letters(s[1..])
  }

  lemma {:induction false} DashedKeepsLetters(s: string, open: bool)
    ensures Letters(Dashed(s, open)) == Letters(s) && |Dashed(s, open)| <= |s|
  {
    if s != "" {
      var next := !IsSlugChar(s[0]);
      DashedKeepsLetters(s[1..], next);
      var rest := Dashed(s[1..], next);
      assert ([s[0]] + rest)[1..] == rest && ("-" + rest)[1..] == rest;
    }
  }

  lemma LettersCons(c: char, rest: string)
    ensures Letters([c] + rest) == (if IsSlugChar(c) then [c] else "") + Letters(rest)
  {
    assert ([c] + rest)[1..] == rest;
  }

  lemma NoLetters()
    ensures Letters("") == ""
  {
  }

  lemma {:induction false} LettersConcat(a: string, b: string)
    ensures Letters(a + b) == Letters(a) + Letters(b)
  {
    hide *;
    NoLetters();
    if a == "" {
      assert a + b == b;
    } else {
      var rest := a[1..];
      LettersConcat(rest, b);
      LettersCons(a[0], rest);
      LettersCons(a[0], rest + b);
      assert a == [a[0]] + rest;
      assert a + b == [a[0]] + (rest + b);
    }
  }

  lemma {:induction false} DashesHaveNoLetters(s: string)
    requires forall i :: 0 <= i < |s| ==> s[i] == '-'
    ensures Letters(s) == ""
  {
    if s != "" {
      DashesHaveNoLetters(s[1..]);
    }
  }

  lemma StripsKeepLetters(s: string)
    ensures Letters(LStripDash(s)) == Letters(s) && Letters(RStripDash(s)) == Letters(s)
  {
    hide Letters, LStripDash, RStripDash;
    var left, right := LStripDash(s), RStripDash(s);
    var dashes := s[..|s| - |left|];
    DashesHaveNoLetters(dashes);
    LettersConcat(dashes, left);
    assert s == dashes + left;
    DashesHaveNoLetters(s[|right|..]);
    LettersConcat(right, s[|right|..]);
    assert s == right + s[|right|..];
  }

  lemma BareKeepsLetters(lowered: string)
    ensures var bare := RStripDash(LStripDash(Dashed(lowered, false)));
            Letters(bare) == Letters(lowered) && |bare| <= |lowered|
  {
    hide Letters, LStripDash, RStripDash, Dashed;
    var dashed := Dashed(lowered, false);
    DashedKeepsLetters(lowered, false);
    StripsKeepLetters(dashed);
    StripsKeepLetters(LStripDash(dashed));
  }

  // A slug has the summary's letters and digits, in order: all of them for a
  // summary of at most 32 characters, else the first ones.
  lemma SlugKeepsLetters(lowered: string)
    ensures Letters(Slug(lowered)) <= Letters(lowered)
    ensures |lowered| <= 32 ==> Letters(Slug(lowered)) == Letters(lowered)
  {
    var bare := RStripDash(LStripDash(Dashed(lowered, false)));
    assert Slug(lowered) == RStripDash(Cut(bare));
    hide *;
    BareKeepsLetters(lowered);
    CutKeepsFirstLetters(bare);
    StripsKeepLetters(Cut(bare));
  }

  // A slug is cut only where it has to be: after 31 or 32 characters.
  lemma LongSlugsAreFull(lowered: string)
    ensures var bare := RStripDash(LStripDash(Dashed(lowered, false)));
            && Slug(lowered) <= bare
            && (|bare| <= 32 ==> Slug(lowered) == bare)
            && (|bare| > 32 ==> |Slug(lowered)| >= 31)
  {
    var dashed := Dashed(lowered, false);
    var left := LStripDash(dashed);
    var bare := RStripDash(left);
    var cut := Cut(bare);
    var slug := RStripDash(cut);
    hide Dashed, LStripDash, RStripDash, IsSlugChar, NoDoubleDash;
    SliceHasNoDoubleDash(dashed, |dashed| - |left|, |dashed|);
    assert left == dashed[|dashed| - |left|..|dashed|];
    assert cut == left[0..|cut|];
    SliceHasNoDoubleDash(left, 0, |cut|);
    EndsInOneDash(cut, slug);
  }

  lemma EndsInOneDash(s: string, r: string)
    requires NoDoubleDash(s) && r <= s && forall i :: |r| <= i < |s| ==> s[i] == '-'
    ensures |r| >= |s| - 1
  {
    if |r| < |s| && |s| >= 2 {
      assert s[|s| - 1] == '-';
      assert s[|s| - 2] != '-';
    }
  }

  lemma CutKeepsFirstLetters(s: string)
    ensures Letters(Cut(s)) <= Letters(s) && (|s| <= 32 ==> Cut(s) == s)
  {
    hide Letters;
    var cut := Cut(s);
    LettersConcat(cut, s[|cut|..]);
    assert s == cut + s[|cut|..];
  }

  // git_branch; lowered is the issue's summary in lower case
  function Branch(toMain: bool, lowered: string, key: string): string {
    if toMain then "main" else key + "-" + Slug(lowered)
  }

  // ------------------------------------------------------------ the key search

  const PREFIXES := ["CHK", "IDP", "INS"]

  // \w, with every non-ASCII character taken as a word character.
  predicate IsWord(c: char) {
    'a' <= c <= 'z' || 'A' <= c <= 'Z' || Decimal.IsDigit(c) || c == '_' || c as int >= 128
  }

  function DigitsEnd(text: string, i: nat): (j: nat)
    requires i <= |text|
    ensures i <= j <= |text|
    ensures forall k :: i <= k < j ==> Decimal.IsDigit(text[k])
    ensures j < |text| ==> !Decimal.IsDigit(text[j])
    decreases |text| - i
  {
    if i < |text| && Decimal.IsDigit(text[i]) then DigitsEnd(text, i + 1) else i
  }

  // The match of \b(?:CHK|IDP|INS)-\d+\b that starts at i.
  function MatchAt(text: string, i: nat): Option<string>
    requires i <= |text|
  {
    if |text| < i + 4 || text[i..i + 3] !in PREFIXES || text[i + 3] != '-' || (i > 0 && IsWord(text[i - 1])) then None
    else
      var j := DigitsEnd(text, i + 4);
      if j == i + 4 || (j < |text| && IsWord(text[j])) then None else Some(text[i..j])
  }

  function SearchFrom(text: string, i: nat): Option<string>
    requires i <= |text|
    decreases |text| - i
  {
    if MatchAt(text, i).Some? then MatchAt(text, i)
    else if i < |text| then SearchFrom(text, i + 1)
    else None
  }

  // JIRA_KEY.search(text)
  function FirstKey(text: string): Option<string> {
    SearchFrom(text, 0)
  }

  predicate IsKey(key: string) {
    |key| > 4 && key[..3] in PREFIXES && key[3] == '-' && forall i :: 4 <= i < |key| ==> Decimal.IsDigit(key[i])
  }

  // The key stands at i as a word of its own.
  predicate StandsAsWord(text: string, key: string, i: nat) {
    && i + |key| <= |text| && text[i..i + |key|] == key
    && (i > 0 ==> !IsWord(text[i - 1]))
    && (i + |key| < |text| ==> !IsWord(text[i + |key|]))
  }

  lemma MatchAtIff(text: string, i: nat, key: string)
    requires i <= |text|
    ensures MatchAt(text, i) == Some(key) <==> IsKey(key) && StandsAsWord(text, key, i)
  {
    if IsKey(key) && StandsAsWord(text, key, i) {
      assert text[i..i + 3] == key[..3] && text[i + 3] == key[3];
      var j := DigitsEnd(text, i + 4);
      assert forall k :: 4 <= k < |key| ==> text[i + k] == key[k];
      assert forall k :: i + 4 <= k < i + |key| ==> text[k] == key[k - i] && Decimal.IsDigit(text[k]);
      assert i + |key| <= j;
      assert j == i + |key|;
    }
    if MatchAt(text, i).Some? {
      var j := DigitsEnd(text, i + 4);
      assert text[i..j][..3] == text[i..i + 3];
    }
  }

  ghost predicate IsFirstKey(text: string, from: nat, key: string) {
    && IsKey(key)
    && exists i: nat :: && from <= i && StandsAsWord(text, key, i)
                        && forall j: nat, k: string :: from <= j < i && IsKey(k) ==> !StandsAsWord(text, k, j)
  }

  lemma {:induction false} SearchIff(text: string, from: nat)
    requires from <= |text|
    ensures SearchFrom(text, from).Some? ==> IsFirstKey(text, from, SearchFrom(text, from).value)
    ensures SearchFrom(text, from).None? ==>
              forall i: nat, key: string :: from <= i && IsKey(key) ==> !StandsAsWord(text, key, i)
    decreases |text| - from
  {
    hide MatchAt, IsKey, StandsAsWord;
    forall key
      ensures MatchAt(text, from) == Some(key) <==> IsKey(key) && StandsAsWord(text, key, from)
    {
      MatchAtIff(text, from, key);
    }
    if MatchAt(text, from).None? {
      if from < |text| {
        SearchIff(text, from + 1);
        if SearchFrom(text, from + 1).Some? {
          var key := SearchFrom(text, from + 1).value;
          var i: nat :| from + 1 <= i && StandsAsWord(text, key, i)
            && forall j: nat, k: string :: from + 1 <= j < i && IsKey(k) ==> !StandsAsWord(text, k, j);
          assert forall j: nat, k: string :: from <= j < i && IsKey(k) ==> !StandsAsWord(text, k, j);
        }
      } else {
        NoKeyPastTheEnd(text);
      }
    }
  }

  lemma NoKeyPastTheEnd(text: string)
    ensures forall i: nat, key: string :: |text| <= i && IsKey(key) ==> !StandsAsWord(text, key, i)
  {
  }

  // The search finds the first key that stands as a word of its own, and none
  // exactly when none does.
  lemma FirstKeyIsFirst(text: string)
    ensures match FirstKey(text)
            case Some(key) => IsFirstKey(text, 0, key)
            case None => forall i: nat, key: string :: IsKey(key) ==> !StandsAsWord(text, key, i)
  {
    SearchIff(text, 0);
  }

  // The keys of the three projects are found.
  lemma ProjectKeysAreFound(prefix: string, n: nat)
    requires prefix in {"CHK", "IDP", "INS"}
    ensures var key := prefix + "-" + Decimal.Digits(n);
            IsKey(key) && FirstKey(key + "-") == Some(key)
  {
    var digits := Decimal.Digits(n);
    var key := prefix + "-" + digits;
    assert key[..3] == prefix && key[3] == '-' && key[4..] == digits;
    assert forall i :: 4 <= i < |key| ==> key[i] == digits[i - 4] && digits[i - 4] in digits;
    hide FirstKey;
    KeyThenDash(key, "");
    assert key + "-" + "" == key + "-";
  }

  lemma KeyHasOneDash(key: string)
    requires IsKey(key)
    ensures forall j :: 0 <= j < |key| ==> (key[j] == '-' <==> j == 3)
  {
    var prefix := key[..3];
    assert prefix == PREFIXES[0] || prefix == PREFIXES[1] || prefix == PREFIXES[2];
    assert forall j :: 0 <= j < 3 ==> key[j] == prefix[j];
  }

  // Inside a longer word there is no key.
  lemma NoKeyInsideAWord(key: string, c: char)
    requires IsKey(key) && ('a' <= c <= 'z' || 'A' <= c <= 'Z' || c == '_')
    ensures FirstKey([c] + key) == None && FirstKey(key + [c]) == None
  {
    hide FirstKey;
    FirstKeyIsFirst([c] + key);
    FirstKeyIsFirst(key + [c]);
    forall i: nat, k | IsKey(k)
      ensures !StandsAsWord([c] + key, k, i) && !StandsAsWord(key + [c], k, i)
    {
      NotAfterALetter(key, c, k, i);
      NotBeforeALetter(key, c, k, i);
    }
  }

  lemma NotAfterALetter(key: string, c: char, k: string, i: nat)
    requires IsKey(key) && IsKey(k) && ('a' <= c <= 'z' || 'A' <= c <= 'Z' || c == '_')
    ensures !StandsAsWord([c] + key, k, i)
  {
    var text := [c] + key;
    KeyHasOneDash(key);
    assert forall j :: 1 <= j < |text| ==> text[j] == key[j - 1];
    OneDash(text, 4, k, i);
  }

  lemma NotBeforeALetter(key: string, c: char, k: string, i: nat)
    requires IsKey(key) && IsKey(k) && ('a' <= c <= 'z' || 'A' <= c <= 'Z' || c == '_')
    ensures !StandsAsWord(key + [c], k, i)
  {
    var text := key + [c];
    KeyHasOneDash(key);
    assert forall j :: 0 <= j < |key| ==> text[j] == key[j];
    OneDash(text, 3, k, i);
    if i == 0 && |k| < |text| && text[0..|k|] == k {
      assert IsWord(text[|k|]);
    }
    assert text[|key|] == c && !Decimal.IsDigit(c);
  }

  // A text with one dash has keys around it only.
  lemma OneDash(text: string, dash: nat, key: string, i: nat)
    requires IsKey(key) && forall j :: 0 <= j < |text| && j != dash ==> text[j] != '-'
    ensures StandsAsWord(text, key, i) ==> i + 3 == dash && text[i..i + |key|] == key
  {
    if StandsAsWord(text, key, i) {
      assert text[i + 3] == key[3];
    }
  }

  // The first key of anything that opens with a key and a dash is that key.
  lemma KeyThenDash(key: string, rest: string)
    requires IsKey(key)
    ensures FirstKey(key + "-" + rest) == Some(key)
  {
    var text := key + "-" + rest;
    assert text[0..3] == key[..3];
    var j := DigitsEnd(text, 4);
    assert text[|key|] == '-';
    assert forall k :: 4 <= k < |key| ==> text[k] == key[k];
    assert j == |key|;
    assert text[0..j] == key;
  }

  // A merge request's branch and title lead back to the issue the branch was
  // made for, whatever the summary and the title say.
  lemma BranchLeadsToItsKey(lowered: string, key: string, title: string)
    requires IsKey(key)
    ensures FirstKey(Branch(false, lowered, key) + " " + title) == Some(key)
  {
    var slug := Slug(lowered);
    hide Slug, FirstKey, IsKey;
    var rest := slug + " " + title;
    KeyThenDash(key, rest);
    assert (key + "-" + slug) + " " + title == key + "-" + rest;
  }

  // Two issues never share a branch, and none has the default branch.
  lemma BranchesAreApart(lowered: string, key: string, lowered': string, key': string)
    requires IsKey(key) && IsKey(key')
    ensures Branch(false, lowered, key) == Branch(false, lowered', key') ==> key == key'
    ensures Branch(false, lowered, key) != Branch(true, lowered', key')
  {
    KeyThenDash(key, Slug(lowered));
    KeyThenDash(key', Slug(lowered'));
    assert key[3] == '-' && "main"[3] == 'n';
  }
}
