// Naming a report so that no earlier one is replaced.
module ReportName {
  import Decimal

  function Name(stem: string, taken: nat): string {
    if taken <= 1 then stem + ".md" else stem + "-" + Decimal.Digits(taken) + ".md"
  }

  lemma NumberInTheName(stem: string, taken: nat)
    requires taken >= 2
    ensures var name := Name(stem, taken);
            |name| > |stem| + 4 && name[|stem| + 1..|name| - 3] == Decimal.Digits(taken)
  {
    var tail := "-" + Decimal.Digits(taken) + ".md";
    assert Name(stem, taken) == stem + tail;
    assert tail[1..|tail| - 3] == Decimal.Digits(taken);
  }

  lemma NamesAreApart(stem: string, a: nat, b: nat)
    requires 1 <= a < b
    ensures Name(stem, a) != Name(stem, b)
  {
    NumberInTheName(stem, b);
    if a > 1 {
      NumberInTheName(stem, a);
      assert Decimal.Value(Decimal.Digits(a)) != Decimal.Value(Decimal.Digits(b));
    }
  }

  ghost predicate AllTaken(stem: string, files: set<string>, n: nat) {
    forall m :: 1 <= m <= n ==> Name(stem, m) in files
  }

  lemma {:induction false} TakenIsBounded(stem: string, files: set<string>, n: nat)
    requires AllTaken(stem, files, n)
    ensures n <= |files|
    decreases n
  {
    if n > 0 {
      var rest := files - {Name(stem, n)};
      forall m | 1 <= m <= n - 1
        ensures Name(stem, m) in rest
      {
        NamesAreApart(stem, m, n);
      }
      TakenIsBounded(stem, rest, n - 1);
    }
  }

  // The first name nobody has, however many reports there are.
  method DefaultOut(stem: string, files: set<string>) returns (path: string, ghost taken: nat)
    ensures path !in files && path == Name(stem, taken)
    ensures 1 <= taken <= |files| + 1 && AllTaken(stem, files, taken - 1)
  {
    path := stem + ".md";
    var n := 1;
    TakenIsBounded(stem, files, 0);
    while path in files
      invariant n >= 1 && path == Name(stem, n) && AllTaken(stem, files, n - 1)
      invariant n <= |files| + 1
      decreases |files| + 1 - n
    {
      TakenIsBounded(stem, files, n);
      n := n + 1;
      path := stem + "-" + Decimal.Digits(n) + ".md";
    }
    taken := n;
  }
}
