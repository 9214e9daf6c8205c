// Rewriting an env file's lines, and the reader the rewritten file is read by.
module EnvFile {
  import opened Common
  import opened Text

  // The values to write, in the order given.
  datatype Values = Values(keys: seq<string>, at: map<string, string>)

  ghost predicate ValuesOk(v: Values) {
    && (forall k :: k in v.keys <==> k in v.at)
    && (forall i, j :: 0 <= i < j < |v.keys| ==> v.keys[i] != v.keys[j])
    && (forall k :: k in v.at ==> GoodKey(k))
  }

  // A key that can be told apart from the rest of its line.
  predicate GoodKey(key: string) {
    key != "" && Trimmed(key) && '=' !in key && key[0] != '#'
  }

  // ------------------------------------------------------------ one line

  function KeyOf(line: string): string {
    Strip(line[..Find('=', line)])
  }

  predicate Commented(line: string) {
    var s := LStrip(line);
    s != "" && s[0] == '#'
  }

  function Line(key: string, value: string): string {
    key + "=" + value
  }

  predicate Managed(line: string, v: Values) {
    KeyOf(line) in v.at && !Commented(line)
  }

  function Rewritten(line: string, v: Values): string {
    if Managed(line, v) then Line(KeyOf(line), v.at[KeyOf(line)]) else line
  }

  function LStripChar(c: char, s: string): string {
    if s != "" && s[0] == c then LStripChar(c, s[1..]) else s
  }

  function RStripChar(c: char, s: string): string {
    if s != "" && s[|s| - 1] == c then RStripChar(c, s[..|s| - 1]) else s
  }

  function StripChar(c: char, s: string): string {
    RStripChar(c, LStripChar(c, s))
  }

  // A value without surrounding space, then double quotes, then single quotes.
  function Cleaned(value: string): string {
    StripChar('\'', StripChar('"', Strip(value)))
  }

  // What a line sets for the reader.
  function Setting(raw: string): Option<(string, string)> {
    var line := Strip(raw);
    if line == "" || line[0] == '#' || '=' !in line then None
    else
      var i := Find('=', line);
      Some((Strip(line[..i]), Cleaned(line[i + 1..])))
  }

  // ------------------------------------------------------------ writer and reader

  function Put(values: map<string, string>, setting: Option<(string, string)>): map<string, string> {
    match setting
    case None => values
    case Some((key, value)) => values[key := value]
  }

  // Later lines win.
  function Reads(lines: seq<string>): map<string, string> {
    if lines == [] then map[]
    else Put(Reads(lines[..|lines| - 1]), Setting(lines[|lines| - 1]))
  }

  lemma ReadsMore(lines: seq<string>, line: string)
    ensures Reads(lines + [line]) == Put(Reads(lines), Setting(line))
  {
    assert (lines + [line])[..|lines|] == lines;
  }

  lemma ReadsNext(lines: seq<string>, n: nat)
    requires n < |lines|
    ensures var line, before := Strip(lines[n]), Reads(lines[..n]);
            Reads(lines[..n + 1]) ==
              if line == "" || line[0] == '#' || '=' !in line then before
              else before[Strip(line[..Find('=', line)]) := Cleaned(line[Find('=', line) + 1..])]
  {
    hide Reads, Strip, Cleaned;
    assert lines[..n + 1] == lines[..n] + [lines[n]];
    ReadsMore(lines[..n], lines[n]);
  }

  lemma NothingRead(lines: seq<string>)
    ensures Reads(lines[..0]) == map[] && lines[..|lines|] == lines
  {
  }

  method FileValues(lines: seq<string>) returns (values: map<string, string>)
    ensures values == Reads(lines)
  {
    hide *;
    NothingRead(lines);
    values := map[];
    for n := 0 to |lines|
      invariant values == Reads(lines[..n])
    {
      ReadsNext(lines, n);
      var line := Strip(lines[n]);
      if line == "" || line[0] == '#' || '=' !in line {
        continue;
      }
      var i := Find('=', line);
      values := values[Strip(line[..i]) := Cleaned(line[i + 1..])];
    }
  }

  function RewrittenAll(lines: seq<string>, v: Values): (r: seq<string>)
    ensures |r| == |lines| && forall i :: 0 <= i < |r| ==> r[i] == Rewritten(lines[i], v)
  {
    seq(|lines|, i requires 0 <= i < |lines| => Rewritten(lines[i], v))
  }

  function Seen(lines: seq<string>, v: Values): set<string> {
    set line | line in lines && Managed(line, v) :: KeyOf(line)
  }

  function Extras(keys: seq<string>, v: Values, seen: set<string>): seq<string>
    requires forall k :: k in keys ==> k in v.at
  {
    if keys == [] then []
    else
      var last := keys[|keys| - 1];
      Extras(keys[..|keys| - 1], v, seen) + if last in seen then [] else [Line(last, v.at[last])]
  }

  function Rendered(base: seq<string>, v: Values): seq<string>
    requires forall k :: k in v.keys ==> k in v.at
  {
    RewrittenAll(base, v) + Extras(v.keys, v, Seen(base, v))
  }

  method Render(base: seq<string>, v: Values) returns (lines: seq<string>)
    requires forall k :: k in v.keys ==> k in v.at
    ensures lines == Rendered(base, v)
  {
    hide Managed, KeyOf, Rewritten;
    lines := base;
    var seen: set<string> := {};
    for index := 0 to |base|
      invariant |lines| == |base|
      invariant forall i :: 0 <= i < index ==> lines[i] == Rewritten(base[i], v)
      invariant forall i :: index <= i < |base| ==> lines[i] == base[i]
      invariant seen == Seen(base[..index], v)
    {
      SeenNext(base, index, v);
      var line := lines[index];
      var key := KeyOf(line);
      RewriteLine(line, v);
      if key in v.at && !Commented(line) {
        seen := seen + {key};
        lines := lines[index := Line(key, v.at[key])];
      }
    }
    assert base[..|base|] == base;
    assert lines == RewrittenAll(base, v);
    for n := 0 to |v.keys|
      invariant lines == RewrittenAll(base, v) + Extras(v.keys[..n], v, seen)
    {
      assert v.keys[..n + 1][..n] == v.keys[..n];
      if v.keys[n] !in seen {
        lines := lines + [Line(v.keys[n], v.at[v.keys[n]])];
      }
    }
    assert v.keys[..|v.keys|] == v.keys;
  }

  lemma RewriteLine(line: string, v: Values)
    ensures Managed(line, v) <==> KeyOf(line) in v.at && !Commented(line)
    ensures Rewritten(line, v) == if Managed(line, v) then Line(KeyOf(line), v.at[KeyOf(line)]) else line
  {
  }

  lemma SeenNext(lines: seq<string>, n: nat, v: Values)
    requires n < |lines|
    ensures Seen(lines[..n + 1], v) == Seen(lines[..n], v) + if Managed(lines[n], v) then {KeyOf(lines[n])} else {}
  {
    hide Managed, KeyOf;
    assert lines[..n + 1] == lines[..n] + [lines[n]];
  }

  // ------------------------------------------------------------ writer and reader see the same key

  lemma {:induction false} LStripBefore(a: string, c: char, b: string)
    requires !IsSpace(c)
    ensures LStrip(a + [c] + b) == LStrip(a) + [c] + b
  {
    hide IsSpace;
    var s := a + [c] + b;
    if a == "" {
      assert s[0] == c && LStrip(s) == s;
    } else if IsSpace(a[0]) {
      assert s[0] == a[0] && s[1..] == a[1..] + [c] + b;
      LStripBefore(a[1..], c, b);
    } else {
      assert s[0] == a[0] && LStrip(s) == s;
    }
  }

  lemma {:induction false} RStripAfter(a: string, c: char, b: string)
    requires !IsSpace(c)
    ensures RStrip(a + [c] + b) == a + [c] + RStrip(b)
  {
    hide IsSpace;
    var s := a + [c] + b;
    if b == "" {
      assert s[|s| - 1] == c && RStrip(s) == s;
    } else if IsSpace(b[|b| - 1]) {
      assert s[|s| - 1] == b[|b| - 1] && s[..|s| - 1] == a + [c] + b[..|b| - 1];
      RStripAfter(a, c, b[..|b| - 1]);
    } else {
      assert s[|s| - 1] == b[|b| - 1] && RStrip(s) == s;
    }
  }

  lemma StripFromFirst(s: string)
    requires s != ""
    ensures IsSpace(s[0]) ==> Strip(s) == Strip(s[1..])
    ensures !IsSpace(s[0]) ==> Strip(s) == RStrip(s)
  {
  }

  lemma {:induction false} StripWithoutLast(s: string)
    requires s != "" && IsSpace(s[|s| - 1])
    ensures Strip(s) == Strip(s[..|s| - 1])
  {
    hide Strip, LStrip, IsSpace;
    var front := s[..|s| - 1];
    StripFromFirst(s);
    if front == "" {
      assert s[1..] == front;
    } else {
      StripFromFirst(front);
      if IsSpace(s[0]) {
        assert front[1..] == s[1..][..|s| - 2];
        StripWithoutLast(s[1..]);
      }
    }
  }

  lemma {:induction false} StripOfRStrip(s: string)
    ensures Strip(RStrip(s)) == Strip(s)
  {
    hide IsSpace;
    if s != "" && IsSpace(s[|s| - 1]) {
      StripOfRStrip(s[..|s| - 1]);
      StripWithoutLast(s);
    }
  }

  lemma StripAround(a: string, b: string)
    ensures Strip(a + "=" + b) == LStrip(a) + "=" + RStrip(b)
  {
    LStripBefore(a, '=', b);
    RStripAfter(LStrip(a), '=', b);
  }

  lemma StripOfLStrip(a: string)
    ensures Strip(LStrip(a)) == Strip(a)
  {
  }

  lemma SettingOfStripped(raw: string, a: string, b: string)
    requires '=' !in a && Strip(raw) == a + "=" + b
    ensures Setting(raw) == if (a + "=" + b)[0] == '#' then None else Some((Strip(a), Cleaned(b)))
  {
    hide Strip, Cleaned;
    var s := a + "=" + b;
    FindAfter('=', a, b);
    assert s[|a|] == '=' && s[..|a|] == a && s[|a| + 1..] == b;
  }

  lemma KeyOfLine(key: string, value: string)
    requires '=' !in key
    ensures KeyOf(Line(key, value)) == Strip(key)
  {
    hide Strip;
    FindAfter('=', key, value);
    assert Line(key, value)[..|key|] == key;
  }

  lemma SettingOf(key: string, value: string)
    requires '=' !in key
    ensures Setting(Line(key, value)) ==
              if Commented(Line(key, value)) then None else Some((Strip(key), Cleaned(value)))
    ensures KeyOf(Line(key, value)) == Strip(key)
  {
    assert !IsSpace('=');
    hide Strip, LStrip, RStrip, StripChar, IsSpace, Setting, KeyOf;
    var a, b := LStrip(key), RStrip(value);
    KeyOfLine(key, value);
    StripAround(key, value);
    LStripBefore(key, '=', value);
    assert forall c :: c in a ==> c in key;
    SettingOfStripped(Line(key, value), a, b);
    StripOfLStrip(key);
    StripOfRStrip(value);
    assert (a + "=" + b)[0] == (a + "=" + value)[0];
  }

  lemma SettingHasItsKey(line: string)
    ensures Setting(line).Some? <==> '=' in line && !Commented(line)
    ensures Setting(line).Some? ==> Setting(line).value.0 == KeyOf(line)
  {
    hide KeyOf;
    var i := Find('=', line);
    if i < |line| {
      assert line == Line(line[..i], line[i + 1..]);
      SettingOf(line[..i], line[i + 1..]);
    }
  }

  lemma LineSetsItsKey(key: string, value: string)
    requires GoodKey(key)
    ensures KeyOf(Line(key, value)) == key && !Commented(Line(key, value))
    ensures Setting(Line(key, value)) == Some((key, Cleaned(value)))
  {
    SettingOf(key, value);
  }

  // ------------------------------------------------------------ reading back

  // `after` holds the given values of the keys in `done`, no other given key,
  // and every other key as `before` has it.
  ghost predicate Overlaid(before: map<string, string>, after: map<string, string>, v: Values, done: set<string>) {
    forall k ::
      if k in v.at then (k in after <==> k in done) && (k in after ==> after[k] == Cleaned(v.at[k]))
      else (k in after <==> k in before) && (k in after ==> after[k] == before[k])
  }

  lemma OverlaidGiven(before: map<string, string>, after: map<string, string>, v: Values, done: set<string>,
      key: string, value: string)
    requires Overlaid(before, after, v, done) && key in v.at
    ensures Overlaid(before, after[key := Cleaned(v.at[key])], v, done + {key})
    ensures Overlaid(before[key := value], after[key := Cleaned(v.at[key])], v, done + {key})
  {
    hide Cleaned;
  }

  lemma OverlaidOther(before: map<string, string>, after: map<string, string>, v: Values, done: set<string>,
      key: string, value: string)
    requires Overlaid(before, after, v, done) && key !in v.at
    ensures Overlaid(before[key := value], after[key := value], v, done)
  {
    hide Cleaned;
  }

  lemma RewrittenOverlays(before: map<string, string>, after: map<string, string>, v: Values,
      done: set<string>, line: string)
    requires ValuesOk(v) && Overlaid(before, after, v, done)
    ensures Overlaid(Put(before, Setting(line)), Put(after, Setting(Rewritten(line, v))), v,
                     done + if Managed(line, v) then {KeyOf(line)} else {})
  {
    hide Setting, Cleaned, KeyOf, Commented, Overlaid, GoodKey, Line;
    SettingHasItsKey(line);
    var key := KeyOf(line);
    var value := if Setting(line).Some? then Setting(line).value.1 else "";
    if Managed(line, v) {
      LineSetsItsKey(key, v.at[key]);
      OverlaidGiven(before, after, v, done, key, value);
    } else {
      assert done + {} == done;
      if Setting(line).Some? {
        OverlaidOther(before, after, v, done, key, value);
      }
    }
  }

  lemma NothingOverlaid(base: seq<string>, v: Values)
    requires base == []
    ensures Overlaid(Reads(base), Reads(RewrittenAll(base, v)), v, Seen(base, v))
  {
  }

  lemma {:induction false} RewritingOverlays(base: seq<string>, v: Values)
    requires ValuesOk(v)
    ensures Overlaid(Reads(base), Reads(RewrittenAll(base, v)), v, Seen(base, v))
  {
    hide *;
    if base == [] {
      NothingOverlaid(base, v);
    } else {
      var last := |base| - 1;
      var front := base[..last];
      RewritingOverlays(front, v);
      SeenNext(base, last, v);
      assert base[..last + 1] == base && base == front + [base[last]];
      assert RewrittenAll(base, v) == RewrittenAll(front, v) + [Rewritten(base[last], v)];
      ReadsMore(front, base[last]);
      ReadsMore(RewrittenAll(front, v), Rewritten(base[last], v));
      RewrittenOverlays(Reads(front), Reads(RewrittenAll(front, v)), v, Seen(front, v), base[last]);
    }
  }

  lemma ExtrasNext(keys: seq<string>, v: Values, seen: set<string>)
    requires keys != [] && forall k :: k in keys ==> k in v.at
    ensures var last := keys[|keys| - 1];
            && (forall k :: k in keys <==> k in keys[..|keys| - 1] || k == last)
            && Extras(keys, v, seen) ==
                 Extras(keys[..|keys| - 1], v, seen) + if last in seen then [] else [Line(last, v.at[last])]
  {
    assert keys == keys[..|keys| - 1] + [keys[|keys| - 1]];
  }

  function KeySet(keys: seq<string>): set<string> {
    set k | k in keys
  }

  lemma KeySetNext(seen: set<string>, keys: seq<string>)
    ensures keys == [] ==> seen + KeySet(keys) == seen
    ensures keys != [] ==>
              var done, last := seen + KeySet(keys[..|keys| - 1]), keys[|keys| - 1];
              seen + KeySet(keys) == if last in seen then done else done + {last}
  {
    if keys != [] {
      assert keys == keys[..|keys| - 1] + [keys[|keys| - 1]];
    }
  }

  lemma {:induction false} ExtrasOverlay(lines: seq<string>, before: map<string, string>, v: Values,
      seen: set<string>, keys: seq<string>)
    requires ValuesOk(v) && (forall k :: k in keys ==> k in v.at)
    requires Overlaid(before, Reads(lines), v, seen)
    ensures Overlaid(before, Reads(lines + Extras(keys, v, seen)), v, seen + KeySet(keys))
  {
    hide *;
    KeySetNext(seen, keys);
    if keys == [] {
      NoExtras(keys, v, seen);
      assert lines + Extras(keys, v, seen) == lines;
    } else {
      var front, last := keys[..|keys| - 1], keys[|keys| - 1];
      ExtrasNext(keys, v, seen);
      KeyIsGood(v, last);
      ExtrasOverlay(lines, before, v, seen, front);
      var more := lines + Extras(front, v, seen);
      if last in seen {
        assert lines + Extras(keys, v, seen) == more;
      } else {
        var line := Line(last, v.at[last]);
        ReadsMore(more, line);
        LineSetsItsKey(last, v.at[last]);
        PutGiven(Reads(more), last, Cleaned(v.at[last]));
        OverlaidGiven(before, Reads(more), v, seen + KeySet(front), last, "");
        assert lines + Extras(keys, v, seen) == more + [line];
      }
    }
  }

  lemma KeyIsGood(v: Values, key: string)
    requires ValuesOk(v) && key in v.at
    ensures GoodKey(key)
  {
  }

  lemma PutGiven(values: map<string, string>, key: string, value: string)
    ensures Put(values, Some((key, value))) == values[key := value]
  {
  }

  // Every key given is read back with its value as the reader cleans it, and
  // every other key reads as before.
  lemma GivenReadBackOthersAsBefore(base: seq<string>, v: Values)
    requires ValuesOk(v)
    ensures var before, after := Reads(base), Reads(Rendered(base, v));
            && (forall k :: k in v.at ==> k in after && after[k] == Cleaned(v.at[k]))
            && (forall k :: k !in v.at ==> (k in after <==> k in before) && (k in after ==> after[k] == before[k]))
  {
    hide Cleaned, Seen, Reads, Extras;
    RewritingOverlays(base, v);
    ExtrasOverlay(RewrittenAll(base, v), Reads(base), v, Seen(base, v), v.keys);
  }

  // Nothing for the reader to take off.
  predicate Plain(value: string) {
    && Trimmed(value)
    && (value != "" ==> value[0] !in "\"'" && value[|value| - 1] !in "\"'")
  }

  lemma {:induction false} LStripCharIff(c: char, s: string)
    ensures |LStripChar(c, s)| <= |s|
    ensures s == "" || s[0] != c ==> LStripChar(c, s) == s
    ensures s != "" && s[0] == c ==> |LStripChar(c, s)| < |s|
  {
    if s != "" && s[0] == c {
      LStripCharIff(c, s[1..]);
    }
  }

  lemma {:induction false} RStripCharIff(c: char, s: string)
    ensures |RStripChar(c, s)| <= |s|
    ensures s == "" || s[|s| - 1] != c ==> RStripChar(c, s) == s
    ensures s != "" && s[|s| - 1] == c ==> |RStripChar(c, s)| < |s|
  {
    if s != "" && s[|s| - 1] == c {
      RStripCharIff(c, s[..|s| - 1]);
    }
  }

  lemma StripCharIff(c: char, s: string)
    ensures |StripChar(c, s)| <= |s|
    ensures if s == "" || (s[0] != c && s[|s| - 1] != c) then StripChar(c, s) == s else |StripChar(c, s)| < |s|
  {
    hide LStripChar, RStripChar;
    LStripCharIff(c, s);
    RStripCharIff(c, LStripChar(c, s));
  }

  lemma StripIff(s: string)
    ensures |Strip(s)| <= |s|
    ensures if Trimmed(s) then Strip(s) == s else |Strip(s)| < |s|
  {
    hide IsSpace;
  }

  // A given value is read back unchanged exactly when it has no space and no
  // quote at either end.
  lemma ReadBackUnchangedIff(base: seq<string>, v: Values, key: string)
    requires ValuesOk(v) && key in v.at
    ensures key in Reads(Rendered(base, v))
    ensures Reads(Rendered(base, v))[key] == v.at[key] <==> Plain(v.at[key])
  {
    hide Reads, Rendered, StripChar, Strip, Trimmed;
    GivenReadBackOthersAsBefore(base, v);
    var value := v.at[key];
    var stripped := Strip(value);
    var unquoted := StripChar('"', stripped);
    StripIff(value);
    StripCharIff('"', stripped);
    StripCharIff('\'', unquoted);
  }

  // ------------------------------------------------------------ lines that stay

  lemma OtherLinesStay(base: seq<string>, v: Values)
    requires ValuesOk(v)
    ensures var lines := Rendered(base, v);
            && |base| <= |lines|
            && (forall i :: 0 <= i < |base| && !Managed(base[i], v) ==> lines[i] == base[i])
            && (forall i :: 0 <= i < |lines| && (i >= |base| || Managed(base[i], v)) ==>
                  Managed(lines[i], v) && lines[i] == Line(KeyOf(lines[i]), v.at[KeyOf(lines[i])]))
            && (forall i :: 0 <= i < |base| ==> KeyOf(lines[i]) == KeyOf(base[i]))
  {
    hide KeyOf, Line, Commented, GoodKey;
    forall i | 0 <= i < |base| && Managed(base[i], v)
      ensures Managed(Rewritten(base[i], v), v) && KeyOf(Rewritten(base[i], v)) == KeyOf(base[i])
    {
      LineSetsItsKey(KeyOf(base[i]), v.at[KeyOf(base[i])]);
    }
    ExtrasAreManaged(v.keys, v, Seen(base, v));
  }

  lemma {:induction false} ExtrasAreManaged(keys: seq<string>, v: Values, seen: set<string>)
    requires ValuesOk(v) && (forall k :: k in keys ==> k in v.at)
    ensures forall line :: line in Extras(keys, v, seen) ==>
              Managed(line, v) && line == Line(KeyOf(line), v.at[KeyOf(line)])
    ensures forall k :: (exists line :: line in Extras(keys, v, seen) && KeyOf(line) == k) <==> k in keys && k !in seen
  {
    hide KeyOf, Line, Commented, GoodKey;
    if keys != [] {
      hide Extras;
      var front, last := keys[..|keys| - 1], keys[|keys| - 1];
      ExtrasNext(keys, v, seen);
      ExtrasAreManaged(front, v, seen);
      LineSetsItsKey(last, v.at[last]);
      if last !in seen {
        assert Line(last, v.at[last]) in Extras(keys, v, seen);
      }
      forall k | k in front && k !in seen
        ensures exists line :: line in Extras(keys, v, seen) && KeyOf(line) == k
      {
        var line :| line in Extras(front, v, seen) && KeyOf(line) == k;
        assert line in Extras(keys, v, seen);
      }
    }
  }

  // ------------------------------------------------------------ rendering again

  lemma RewrittenTwice(line: string, v: Values, w: Values)
    requires ValuesOk(v) && ValuesOk(w) && v.keys == w.keys
    ensures Rewritten(Rewritten(line, v), w) == Rewritten(line, w)
    ensures Managed(Rewritten(line, v), w) <==> Managed(line, w)
    ensures KeyOf(Rewritten(line, v)) == KeyOf(line)
  {
    hide KeyOf, Line, Commented, GoodKey;
    if Managed(line, v) {
      LineSetsItsKey(KeyOf(line), v.at[KeyOf(line)]);
    }
  }

  lemma AllSeen(base: seq<string>, v: Values, w: Values)
    requires ValuesOk(v) && ValuesOk(w) && v.keys == w.keys
    ensures forall k :: k in w.keys ==> k in Seen(Rendered(base, v), w)
  {
    hide KeyOf, Line, Commented, GoodKey, Extras;
    var lines := Rendered(base, v);
    ExtrasAreManaged(v.keys, v, Seen(base, v));
    forall k | k in w.keys
      ensures k in Seen(lines, w)
    {
      if k in Seen(base, v) {
        var i :| 0 <= i < |base| && Managed(base[i], v) && KeyOf(base[i]) == k;
        RewrittenTwice(base[i], v, w);
        assert lines[i] == Rewritten(base[i], v) && lines[i] in lines;
      } else {
        var line :| line in Extras(v.keys, v, Seen(base, v)) && KeyOf(line) == k;
        assert line in lines && Managed(line, w);
      }
    }
  }

  lemma {:induction false} NoExtras(keys: seq<string>, v: Values, seen: set<string>)
    requires forall k :: k in keys ==> k in v.at && k in seen
    ensures Extras(keys, v, seen) == []
  {
    if keys != [] {
      NoExtras(keys[..|keys| - 1], v, seen);
    }
  }

  lemma {:induction false} RewrittenExtras(keys: seq<string>, v: Values, w: Values, seen: set<string>)
    requires ValuesOk(v) && ValuesOk(w) && v.keys == w.keys && (forall k :: k in keys ==> k in v.at)
    ensures RewrittenAll(Extras(keys, v, seen), w) == Extras(keys, w, seen)
  {
    hide KeyOf, Line, Commented, GoodKey;
    if keys != [] {
      var front, last := keys[..|keys| - 1], keys[|keys| - 1];
      ExtrasNext(keys, v, seen);
      ExtrasNext(keys, w, seen);
      hide Extras;
      RewrittenExtras(front, v, w, seen);
      LineSetsItsKey(last, v.at[last]);
      assert last in w.at;
    }
  }

  // A second rendering of the same keys overrides the first.
  lemma SecondRenderingOverrides(base: seq<string>, v: Values, w: Values)
    requires ValuesOk(v) && ValuesOk(w) && v.keys == w.keys
    ensures Rendered(Rendered(base, v), w) == Rendered(base, w)
  {
    hide KeyOf, Line, Commented, GoodKey, Extras, Rewritten;
    var lines, extras := Rendered(base, v), Extras(v.keys, v, Seen(base, v));
    AllSeen(base, v, w);
    NoExtras(w.keys, w, Seen(lines, w));
    RewrittenExtras(v.keys, v, w, Seen(base, v));
    forall i | 0 <= i < |base|
      ensures Rewritten(Rewritten(base[i], v), w) == Rewritten(base[i], w)
      ensures Managed(base[i], v) <==> Managed(base[i], w)
    {
      RewrittenTwice(base[i], v, w);
    }
    assert Seen(base, v) == Seen(base, w);
    assert RewrittenAll(lines, w) == RewrittenAll(base, w) + Extras(w.keys, w, Seen(base, w));
    assert Rendered(lines, w) == RewrittenAll(lines, w) + [];
  }

  lemma RenderingTwice(base: seq<string>, v: Values)
    requires ValuesOk(v)
    ensures Rendered(Rendered(base, v), v) == Rendered(base, v)
  {
    SecondRenderingOverrides(base, v, v);
  }
}
