// Repository lists as stored metadata: printing and parsing.
module RepoList {
  import opened Text

  // What a metadata value may hold; a scalar that is no string comes as its text.
  datatype Stored = Missing | Joined(s: string) | Items(items: seq<string>) | Scalar(s: string)

  function RawItems(value: Stored): seq<string> {
    match value
    case Missing => []
    case Joined(s) => Split(',', Replaced(s))
    case Items(items) => items
    case Scalar(s) => [s]
  }

  // value.replace("\n", ",")
  function Replaced(s: string): (r: string)
    ensures |r| == |s|
    ensures forall i :: 0 <= i < |s| ==> r[i] == if s[i] == '\n' then ',' else s[i]
  {
    seq(|s|, i requires 0 <= i < |s| => if s[i] == '\n' then ',' else s[i])
  }

  // The trimmed, non-empty, first-met items.
  function Names(raw: seq<string>): (r: seq<string>) {
    if raw == [] then []
    else
      var r, name := Names(raw[..|raw| - 1]), Strip(raw[|raw| - 1]);
      if name == "" || name in r then r else r + [name]
  }

  ghost predicate AreItems(names: seq<string>, raw: seq<string>) {
    && (forall n :: n in names <==> n != "" && exists x :: x in raw && n == Strip(x))
    && (forall i, j :: 0 <= i < j < |names| ==> names[i] != names[j])
  }

  lemma OneMoreItem(names: seq<string>, front: seq<string>, last: string)
    requires AreItems(names, front)
    ensures AreItems(if Strip(last) == "" || Strip(last) in names then names else names + [Strip(last)], front + [last])
  {
    hide Strip;
    assert last in front + [last];
    assert forall x :: x in front + [last] <==> x in front || x == last;
  }

  lemma {:induction false} NamesAreTheItems(raw: seq<string>)
    ensures AreItems(Names(raw), raw)
  {
    hide AreItems, Strip, Names;
    if raw == [] {
      NoItems();
    } else {
      var front, last := raw[..|raw| - 1], raw[|raw| - 1];
      NamesAreTheItems(front);
      OneMoreItem(Names(front), front, last);
      OneMoreName(front, last);
      assert raw == front + [last];
    }
  }

  lemma NoItems()
    ensures Names([]) == [] && AreItems([], [])
  {
  }

  lemma OneMoreName(front: seq<string>, last: string)
    ensures Names([]) == []
    ensures Names(front + [last])
            == if Strip(last) == "" || Strip(last) in Names(front) then Names(front) else Names(front) + [Strip(last)]
  {
    assert (front + [last])[..|front|] == front;
  }

  method Parse(value: Stored) returns (repos: seq<string>)
    ensures repos == Names(RawItems(value))
    ensures AreItems(repos, RawItems(value))
  {
    hide Names, Strip, RawItems, AreItems;
    OneMoreName([], "");
    NamesAreTheItems(RawItems(value));
    var raw := RawItems(value);
    var seen: set<string> := {};
    repos := [];
    for i := 0 to |raw|
      invariant repos == Names(raw[..i])
      invariant seen == set n | n in repos
    {
      OneMoreName(raw[..i], raw[i]);
      assert raw[..i + 1] == raw[..i] + [raw[i]];
      var repo := Strip(raw[i]);
      if repo != "" && repo !in seen {
        seen := seen + {repo};
        repos := repos + [repo];
      }
    }
    assert raw[..|raw|] == raw;
  }

  predicate IsName(n: string) {
    n != "" && Trimmed(n) && ',' !in n && '\n' !in n
  }

  lemma {:induction false} CleanNamesStay(names: seq<string>)
    requires forall n :: n in names ==> n != "" && Trimmed(n)
    requires forall i, j :: 0 <= i < j < |names| ==> names[i] != names[j]
    ensures Names(names) == names
  {
    hide Strip, Trimmed, Names;
    if names == [] {
      OneMoreName([], "");
    } else {
      var front, last := names[..|names| - 1], names[|names| - 1];
      assert names == front + [last];
      assert last in names && last !in front;
      assert forall n :: n in front ==> n in names;
      CleanNamesStay(front);
      OneMoreName(front, last);
    }
  }

  lemma NamesAreTrimmed(raw: seq<string>)
    ensures forall n :: n in Names(raw) ==> n != "" && Trimmed(n)
    ensures forall i, j :: 0 <= i < j < |Names(raw)| ==> Names(raw)[i] != Names(raw)[j]
  {
    NamesAreTheItems(raw);
    hide Names, Strip, Trimmed;
    forall n | n in Names(raw)
      ensures n != "" && Trimmed(n)
    {
      var x :| x in raw && n == Strip(x);
    }
  }

  // One scalar is one name, if it is any.
  lemma ScalarIsOneName(s: string)
    ensures Names(RawItems(Scalar(s))) == if Strip(s) == "" then [] else [Strip(s)]
    ensures Names(RawItems(Missing)) == []
  {
    hide Strip;
    OneMoreName([], s);
    assert [] + [s] == [s];
  }

  // A joined text is cut at every comma and every line break, and nowhere else.
  lemma JoinedIsCut(s: string)
    ensures var parts := RawItems(Joined(s));
            && (forall part :: part in parts ==> ',' !in part && '\n' !in part)
            && Join(',', parts) == Replaced(s)
  {
    JoinSplit(',', Replaced(s));
    hide Split, Join;
    forall part | part in Split(',', Replaced(s))
      ensures '\n' !in part
    {
      PartsAreOfTheText(',', Replaced(s), part);
      assert '\n' !in Replaced(s);
    }
  }

  lemma PartsAreOfTheText(c: char, s: string, part: string)
    requires part in Split(c, s)
    ensures forall x :: x in part ==> x in s
  {
    var parts := Split(c, s);
    var i :| 0 <= i < |parts| && parts[i] == part;
    JoinSplit(c, s);
    JoinHolds(c, parts, i);
    var before, after :| s == before + part + after;
  }

  // Parsing what was parsed changes nothing.
  lemma ParsingTwice(value: Stored)
    ensures var once := Names(RawItems(value)); Names(RawItems(Items(once))) == once
  {
    NamesAreTrimmed(RawItems(value));
    hide Names, Trimmed;
    CleanNamesStay(Names(RawItems(value)));
  }

  lemma {:induction false} JoinHasNoNewline(names: seq<string>)
    requires forall n :: n in names ==> '\n' !in n
    ensures '\n' !in Join(',', names)
  {
    if |names| > 1 {
      JoinHasNoNewline(names[1..]);
    }
  }

  // The comma join of distinct clean names parses back to them.
  lemma ParsingInvertsJoin(names: seq<string>)
    requires forall n :: n in names ==> IsName(n)
    requires forall i, j :: 0 <= i < j < |names| ==> names[i] != names[j]
    ensures Names(RawItems(Joined(Join(',', names)))) == names
  {
    hide Names, Join, Split, Strip, Trimmed;
    var joined := Join(',', names);
    JoinHasNoNewline(names);
    assert Replaced(joined) == joined;
    if names == [] {
      ParsingNothing();
    } else {
      SplitJoin(',', names);
      CleanNamesStay(names);
    }
  }

  lemma ParsingNothing()
    ensures Names(Split(',', Join(',', []))) == []
  {
    hide Names, Strip;
    assert Split(',', "") == [""];
    OneMoreName([], "");
    assert [] + [""] == [""];
    assert Strip("") == "";
  }
}
