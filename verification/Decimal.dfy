// Decimal renderings: str(n) and the zero-padded form of format specs.
module Decimal {
  import opened Text

  function Digit(d: nat): char
    requires d < 10
  {
    "0123456789"[d]
  }

  predicate IsDigit(c: char) {
    '0' <= c <= '9'
  }

  function Value(s: string): nat
    requires forall c :: c in s ==> IsDigit(c)
  {
    if s == "" then 0
    else
      assert forall c :: c in s[..|s| - 1] ==> c in s;
      var last := s[|s| - 1];
      assert last in s && IsDigit(last);
      10 * Value(s[..|s| - 1]) + (last as int - '0' as int)
  }

  // str(n)
  function Digits(n: nat): (s: string)
    ensures s != "" && forall c :: c in s ==> IsDigit(c)
    ensures Value(s) == n && (n < 10 ==> |s| == 1) && (n > 0 ==> s[0] != '0')
  {
    if n < 10 then [Digit(n)]
    else
      var s := Digits(n / 10) + [Digit(n % 10)];
      assert s[..|s| - 1] == Digits(n / 10);
      s
  }

  // f"{n:0{width}d}"
  function Padded(n: nat, width: nat): (s: string)
    ensures s != "" && forall c :: c in s ==> IsDigit(c)
    ensures Value(s) == n
    ensures |s| == if |Digits(n)| < width then width else |Digits(n)|
  {
    Zeros(width, Digits(n))
  }

  function Zeros(width: nat, s: string): (r: string)
    requires s != "" && forall c :: c in s ==> IsDigit(c)
    ensures r != "" && forall c :: c in r ==> IsDigit(c)
    ensures Value(r) == Value(s) && |r| == if |s| < width then width else |s|
    decreases width - |s|
  {
    if |s| >= width then s
    else
      ZeroInFront(s);
      Zeros(width, "0" + s)
  }

  lemma {:induction false} ZeroInFront(s: string)
    requires forall c :: c in s ==> IsDigit(c)
    ensures forall c :: c in "0" + s ==> IsDigit(c)
    ensures Value("0" + s) == Value(s)
  {
    if s == "" {
      assert "0" + s == "0";
    } else {
      var front := s[..|s| - 1];
      assert forall c :: c in front ==> c in s;
      ZeroInFront(front);
      assert ("0" + s)[..|s|] == "0" + front;
    }
  }

  // ------------------------------------------------------------ order

  function PowerOfTen(k: nat): (n: nat)
    ensures n > 0
  {
    if k == 0 then 1 else 10 * PowerOfTen(k - 1)
  }

  lemma {:induction false} DigitsAreFew(n: nat, k: nat)
    requires k > 0 && n < PowerOfTen(k)
    ensures |Digits(n)| <= k
  {
    if n >= 10 {
      assert k > 1 by {
        assert PowerOfTen(1) == 10 * PowerOfTen(0);
      }
      DigitsAreFew(n / 10, k - 1);
    }
  }

  lemma FrontIsDigits(s: string)
    requires s != "" && forall c :: c in s ==> IsDigit(c)
    ensures forall c :: c in s[..|s| - 1] ==> IsDigit(c)
    ensures IsDigit(s[|s| - 1])
    ensures Value(s) == 10 * Value(s[..|s| - 1]) + (s[|s| - 1] as int - '0' as int)
  {
    assert s[|s| - 1] in s;
    assert forall c :: c in s[..|s| - 1] ==> c in s;
  }

  lemma {:induction false} LessBefore(a: string, b: string, x: char, y: char)
    requires |a| == |b|
    ensures Less(a, b) ==> Less(a + [x], b + [y])
    ensures a == b && x < y ==> Less(a + [x], b + [y])
  {
    if a != "" {
      LessBefore(a[1..], b[1..], x, y);
      assert (a + [x])[1..] == a[1..] + [x] && (b + [y])[1..] == b[1..] + [y];
    }
  }

  // Numbers printed equally wide are in the order of their texts.
  lemma {:induction false} EquallyWideInOrder(a: string, b: string)
    requires |a| == |b| && (forall c :: c in a ==> IsDigit(c)) && (forall c :: c in b ==> IsDigit(c))
    ensures Value(a) == Value(b) ==> a == b
    ensures Value(a) < Value(b) ==> Less(a, b)
    decreases |a|
  {
    if a != "" {
      FrontIsDigits(a);
      FrontIsDigits(b);
      var front, front' := a[..|a| - 1], b[..|b| - 1];
      EquallyWideInOrder(front, front');
      LessBefore(front, front', a[|a| - 1], b[|b| - 1]);
      assert a == front + [a[|a| - 1]] && b == front' + [b[|b| - 1]];
    }
  }
}
