/** The text of a Kubernetes quantity: a decimal number, then a suffix or a decimal exponent or neither. */
module QuantityText {
  import opened Text
  import opened Quantity

  function DigitsEnd(s: string, i: nat): (j: nat)
    requires i <= |s|
    ensures i <= j <= |s|
    decreases |s| - i
  {
    if i < |s| && IsDigit(s[i]) then DigitsEnd(s, i + 1) else i
  }

  predicate AllDigits(s: string) {
    forall c <- s :: IsDigit(c)
  }

  function Number(s: string): nat
    requires AllDigits(s)
  {
    if s == "" then 0
    else
      assert s[|s| - 1] in s;
      Number(s[..|s| - 1]) * 10 + (s[|s| - 1] as int - '0' as int)
  }

  const DECIMAL_SI: map<string, int> := map["n" := -9, "u" := -6, "m" := -3, "k" := 3, "K" := 3,
                                            "M" := 6, "G" := 9, "T" := 12, "P" := 15, "E" := 18]
  const BINARY_SI: map<string, nat> := map["Ki" := 10, "Mi" := 20, "Gi" := 30, "Ti" := 40, "Pi" := 50, "Ei" := 60]

  /** A suffix as the exact ratio it multiplies by. */
  function Scale(suffix: string): (r: (nat, nat))
    ensures r.0 > 0 && 0 < r.1 <= Pow10(9)
  {
    if suffix in BINARY_SI then (Pow2(BINARY_SI[suffix]), 1)
    else if suffix in DECIMAL_SI then
      var power := DECIMAL_SI[suffix];
      if power >= 0 then (Pow10(power), 1)
      else
        Pow10Monotone(-power, 9);
        (1, Pow10(-power))
    else (1, 1)
  }

  predicate IsSuffix(s: string) {
    s in BINARY_SI || s in DECIMAL_SI
  }

  datatype Tail = Nothing | Suffix(name: string) | Exponent(letter: char, sign: string, digits: string) {
    predicate Valid() {
      match this
      case Nothing => true
      case Suffix(name) => IsSuffix(name)
      case Exponent(letter, sign, digits) =>
        (letter == 'e' || letter == 'E') && sign in {"", "+", "-"} && digits != "" && AllDigits(digits)
    }

    function Print(): string {
      match this
      case Nothing => ""
      case Suffix(name) => name
      case Exponent(letter, sign, digits) => [letter] + sign + digits
    }

    function Power(): int
      requires Valid()
    {
      match this
      case Exponent(_, sign, digits) => if sign == "-" then 0 - Number(digits) else Number(digits)
      case _ => 0
    }
  }

  /** A quantity as written: sign, digits, perhaps a point and more digits, tail. */
  datatype Spelling = Spelling(sign: string, whole: string, point: bool, fraction: string, tail: Tail) {
    predicate Valid() {
      && sign in {"", "+", "-"} && AllDigits(whole) && AllDigits(fraction) && tail.Valid()
      && (whole != "" || fraction != "") && (fraction != "" ==> point)
    }

    function Print(): string {
      sign + (whole + ((if point then "." else "") + (fraction + tail.Print())))
    }

    /** The value, or None for a negative one. Minus zero is zero. */
    function Value(): Option<Quantity>
      requires Valid()
    {
      AllDigitsJoin(whole, fraction);
      var digits := Number(whole + fraction);
      if sign == "-" && digits > 0 then None
      else
        var (numerator, denominator) := Scale(if tail.Suffix? then tail.name else "");
        Some(Quantity(digits, tail.Power() - |fraction|, numerator, denominator))
    }
  }

  lemma AllDigitsJoin(a: string, b: string)
    requires AllDigits(a) && AllDigits(b)
    ensures AllDigits(a + b)
  {
    assert forall c <- a + b :: c in a || c in b;
  }

  /** One more digit behind the point. */
  lemma OneMoreDigit(front: nat, power: nat, back: nat, digit: nat)
    ensures (front * power + back) * 10 + digit == front * (power * 10) + (back * 10 + digit)
  {
  }

  lemma LastDigit(s: string)
    requires s != "" && AllDigits(s)
    ensures AllDigits(s[..|s| - 1]) && s[|s| - 1] in s
    ensures Number(s) == Number(s[..|s| - 1]) * 10 + (s[|s| - 1] as int - '0' as int)
  {
    assert forall c <- s[..|s| - 1] :: c in s;
  }

  /** The digits before and behind the point mean what they mean in a decimal fraction. */
  lemma {:induction false} NumberOfJoined(a: string, b: string)
    requires AllDigits(a) && AllDigits(b) && AllDigits(a + b)
    ensures Number(a + b) == Number(a) * Pow10(|b|) + Number(b)
    decreases |b|
  {
    if b == "" {
      assert a + b == a;
    } else {
      var init, last := b[..|b| - 1], b[|b| - 1];
      assert (a + b)[..|a + b| - 1] == a + init;
      LastDigit(b);
      LastDigit(a + b);
      NumberOfJoined(a, init);
      OneMoreDigit(Number(a), Pow10(|init|), Number(init), last as int - '0' as int);
      assert Pow10(|b|) == Pow10(|init|) * 10;
    }
  }

  // ----- the suffixes, in numbers -----

  lemma {:induction false} Pow2Sum(a: nat, b: nat)
    ensures Pow2(a + b) == Pow2(a) * Pow2(b)
  {
    if a > 0 {
      Pow2Sum(a - 1, b);
      assert Pow2(a + b) == 2 * Pow2(a - 1 + b);
      assert 2 * (Pow2(a - 1) * Pow2(b)) == (2 * Pow2(a - 1)) * Pow2(b);
    }
  }

  lemma Pow10Three(n: nat)
    ensures Pow10(n + 3) == 1000 * Pow10(n)
  {
    assert Pow10(n + 1) == 10 * Pow10(n) && Pow10(n + 2) == 100 * Pow10(n);
  }

  /** `large` is this many times what `small` is. */
  predicate Times(large: string, factor: nat, small: string) {
    Scale(large).0 * Scale(small).1 == factor * Scale(small).0 * Scale(large).1
  }

  lemma NextBinary(large: string, small: string, n: nat)
    requires small in BINARY_SI && large in BINARY_SI && BINARY_SI[small] == n && BINARY_SI[large] == n + 10
    ensures Times(large, 1024, small)
  {
    Pow2Sum(10, n);
    Pow2Sum(5, 5);
    assert Pow2(5) == 32;
    assert Scale(large) == (Pow2(n + 10), 1) && Scale(small) == (Pow2(n), 1);
  }

  lemma NextDecimal(large: string, small: string, n: int)
    requires small in DECIMAL_SI && large in DECIMAL_SI && DECIMAL_SI[small] == n && DECIMAL_SI[large] == n + 3
    requires n >= 0 || n <= -3
    requires small !in BINARY_SI && large !in BINARY_SI
    ensures Times(large, 1000, small)
  {
    if n >= 0 {
      Pow10Three(n);
      assert Scale(large) == (Pow10(n + 3), 1) && Scale(small) == (Pow10(n), 1);
    } else {
      Pow10Three(-n - 3);
      assert Scale(small) == (1, Pow10(-n));
      assert Scale(large) == (1, Pow10(-n - 3));
    }
  }

  /** The binary suffixes are the powers of 1024, in this order. */
  lemma BinarySuffixes()
    ensures Times("Ki", 1024, "") && Times("Mi", 1024, "Ki") && Times("Gi", 1024, "Mi")
    ensures Times("Ti", 1024, "Gi") && Times("Pi", 1024, "Ti") && Times("Ei", 1024, "Pi")
  {
    assert Scale("") == (1, 1);
    assert Pow2(5) == 32;
    Pow2Sum(5, 5);
    NextBinary("Mi", "Ki", 10);
    NextBinary("Gi", "Mi", 20);
    NextBinary("Ti", "Gi", 30);
    NextBinary("Pi", "Ti", 40);
    NextBinary("Ei", "Pi", 50);
  }

  /** The decimal suffixes from a thousand on are the powers of 1000; a thousand is written k or K. */
  lemma DecimalSuffixes()
    ensures Times("k", 1000, "") && Times("K", 1000, "") && Times("M", 1000, "k") && Times("G", 1000, "M")
    ensures Times("T", 1000, "G") && Times("P", 1000, "T") && Times("E", 1000, "P")
  {
    Pow10Three(0);
    NextDecimal("M", "k", 3);
    NextDecimal("G", "M", 6);
    NextDecimal("T", "G", 9);
    NextDecimal("P", "T", 12);
    NextDecimal("E", "P", 15);
  }

  /** Those below one are its thousandth, millionth and billionth; without a suffix a number is itself. */
  lemma SmallSuffixes()
    ensures Scale("") == (1, 1) && Times("", 1000, "m") && Times("m", 1000, "u") && Times("u", 1000, "n")
  {
    Pow10Three(0);
    NextDecimal("m", "u", -6);
    NextDecimal("u", "n", -9);
  }

  // ----- the reading -----

  /** What stands after the number; None if it is no suffix and no exponent. */
  function ReadTail(s: string): Option<Tail> {
    if s == "" then Some(Nothing)
    else if IsSuffix(s) then Some(Suffix(s))
    else if s[0] == 'e' || s[0] == 'E' then
      var i := if |s| > 1 && (s[1] == '+' || s[1] == '-') then 2 else 1;
      if i < |s| && AllDigits(s[i..]) then Some(Exponent(s[0], s[1..i], s[i..])) else None
    else None
  }

  /** Where the sign, the digits, the point and the digits behind it end. */
  datatype Cuts = Cuts(sign: nat, whole: nat, point: nat, fraction: nat)

  function CutsOf(s: string): (c: Cuts)
    ensures c.sign <= c.whole <= c.point <= c.fraction <= |s|
  {
    var i := if s != "" && (s[0] == '+' || s[0] == '-') then 1 else 0;
    var a := DigitsEnd(s, i);
    if a < |s| && s[a] == '.' then Cuts(i, a, a + 1, DigitsEnd(s, a + 1)) else Cuts(i, a, a, a)
  }

  function Read(s: string): Option<Spelling> {
    var c := CutsOf(s);
    if c.whole == c.sign && c.fraction == c.point then None
    else
      var tail :- ReadTail(s[c.fraction..]);
      Some(Spelling(s[..c.sign], s[c.sign..c.whole], c.point > c.whole, s[c.point..c.fraction], tail))
  }

  lemma {:induction false} DigitsEndSpec(s: string, i: nat)
    requires i <= |s|
    ensures AllDigits(s[i..DigitsEnd(s, i)])
    ensures DigitsEnd(s, i) < |s| ==> !IsDigit(s[DigitsEnd(s, i)])
    decreases |s| - i
  {
    if i < |s| && IsDigit(s[i]) {
      DigitsEndSpec(s, i + 1);
      assert s[i..DigitsEnd(s, i)] == [s[i]] + s[i + 1..DigitsEnd(s, i)];
    }
  }

  lemma ReadTailPrints(s: string)
    requires ReadTail(s).Some?
    ensures ReadTail(s).value.Valid() && ReadTail(s).value.Print() == s
  {
    if ReadTail(s).value.Exponent? {
      var i := if |s| > 1 && (s[1] == '+' || s[1] == '-') then 2 else 1;
      assert i == 2 ==> s[1..i] == [s[1]];
      assert s == [s[0]] + s[1..i] + s[i..];
    }
  }

  lemma CutsSpec(s: string)
    ensures var c := CutsOf(s);
      && AllDigits(s[c.sign..c.whole]) && AllDigits(s[c.point..c.fraction]) && s[..c.sign] in {"", "+", "-"}
      && s[c.whole..c.point] == (if c.point > c.whole then "." else "")
      && (c.fraction > c.point ==> c.point > c.whole)
  {
    var c := CutsOf(s);
    DigitsEndSpec(s, c.sign);
    if c.point > c.whole {
      DigitsEndSpec(s, c.point);
      assert s[c.whole..c.point] == ".";
    }
    assert c.sign == 1 ==> s[..1] == [s[0]];
  }

  /** What is read was written so. */
  lemma ReadPrints(s: string)
    requires Read(s).Some?
    ensures Read(s).value.Valid() && Read(s).value.Print() == s
  {
    var c := CutsOf(s);
    CutsSpec(s);
    ReadTailPrints(s[c.fraction..]);
    Cut(s, c.sign, c.whole, c.point, c.fraction);
  }

  lemma Cut(s: string, i: nat, a: nat, f: nat, b: nat)
    requires i <= a <= f <= b <= |s|
    ensures s == s[..i] + (s[i..a] + (s[a..f] + (s[f..b] + s[b..])))
  {
  }

  lemma {:induction false} DigitsEndAt(s: string, i: nat, part: string)
    requires AllDigits(part) && At(s, i, part) && (i + |part| < |s| ==> !IsDigit(s[i + |part|]))
    ensures DigitsEnd(s, i) == i + |part|
    decreases |part|
  {
    if part != "" {
      assert s[i] == s[i..i + |part|][0];
      assert s[i + 1..i + |part|] == s[i..i + |part|][1..];
      DigitsEndAt(s, i + 1, part[1..]);
    }
  }

  lemma ReadTailOf(t: Tail)
    requires t.Valid()
    ensures ReadTail(t.Print()) == Some(t)
  {
    if t.Exponent? {
      var s := t.Print();
      assert t.digits[0] in t.digits;
      assert |s| >= 2 && (|s| == 2 ==> IsDigit(s[1]));
      var i := 1 + |t.sign|;
      assert s[i..] == t.digits && s[1..i] == t.sign;
      assert t.sign == "" ==> s[1] == t.digits[0];
      NotASuffix(s);
    }
  }

  lemma TailStarts(t: Tail)
    requires t.Valid()
    ensures t.Print() != "" ==> !IsDigit(t.Print()[0]) && t.Print()[0] != '.'
  {
  }

  lemma NotASuffix(s: string)
    requires |s| >= 2 && IsDigit(s[|s| - 1])
    ensures !IsSuffix(s)
  {
  }

  lemma PrintedPieces(x: Spelling)
    ensures var s, i := x.Print(), |x.sign|;
      var a := i + |x.whole|;
      var f := a + if x.point then 1 else 0;
      var b := f + |x.fraction|;
      && b + |x.tail.Print()| == |s| && s[..i] == x.sign && s[i..a] == x.whole
      && s[a..f] == (if x.point then "." else "") && s[f..b] == x.fraction && s[b..] == x.tail.Print()
  {
  }

  function CutsFor(x: Spelling): Cuts {
    var i := |x.sign|;
    var a := i + |x.whole|;
    var f := a + if x.point then 1 else 0;
    Cuts(i, a, f, f + |x.fraction|)
  }

  lemma CutsOfPrinted(x: Spelling)
    requires x.Valid()
    ensures CutsOf(x.Print()) == CutsFor(x)
  {
    PrintedPieces(x);
    SignEnds(x);
    CutsOfSpelling(x, x.Print(), CutsFor(x));
  }

  lemma CutsOfSpelling(x: Spelling, s: string, c: Cuts)
    requires x.Valid() && c == CutsFor(x) && c.fraction <= |s|
    requires s != "" && ((s[0] == '+' || s[0] == '-') <==> x.sign != "")
    requires s[c.sign..c.whole] == x.whole && s[c.point..c.fraction] == x.fraction && s[c.fraction..] == x.tail.Print()
    requires s[c.whole..c.point] == (if x.point then "." else "")
    ensures CutsOf(s) == c
  {
    TailStarts(x.tail);
    CutsOfPieces(s, c, x.whole, x.fraction, x.tail.Print());
  }

  lemma CutsOfPieces(s: string, c: Cuts, whole: string, fraction: string, tail: string)
    requires c.sign <= c.whole <= c.point <= c.fraction <= |s|
    requires c.sign == if s != "" && (s[0] == '+' || s[0] == '-') then 1 else 0
    requires s[c.sign..c.whole] == whole && AllDigits(whole) && s[c.point..c.fraction] == fraction && AllDigits(fraction)
    requires s[c.whole..c.point] == "." || (s[c.whole..c.point] == "" && fraction == "")
    requires s[c.fraction..] == tail && (tail != "" ==> !IsDigit(tail[0]) && tail[0] != '.')
    ensures CutsOf(s) == c
  {
    assert c.point > c.whole ==> s[c.whole] == s[c.whole..c.point][0];
    assert c.fraction < |s| ==> s[c.fraction] == s[c.fraction..][0];
    CutsAt(s, c.sign, c.whole, c.point, c.fraction);
  }

  lemma CutsAt(s: string, i: nat, a: nat, f: nat, b: nat)
    requires i <= a <= f <= b <= |s| && i == if s != "" && (s[0] == '+' || s[0] == '-') then 1 else 0
    requires AllDigits(s[i..a]) && AllDigits(s[f..b]) && (b < |s| ==> !IsDigit(s[b]) && s[b] != '.')
    requires if f == a then b == f else f == a + 1 && s[a] == '.'
    ensures CutsOf(s) == Cuts(i, a, f, b)
  {
    DigitsEndAt(s, i, s[i..a]);
    if f > a {
      DigitsEndAt(s, f, s[f..b]);
    }
  }

  lemma SignEnds(x: Spelling)
    requires x.Valid()
    ensures x.Print() != ""
    ensures (x.Print()[0] == '+' || x.Print()[0] == '-') <==> x.sign != ""
  {
    var s := x.Print();
    if x.sign == "" {
      if x.whole != "" {
        assert s[0] == x.whole[0] && x.whole[0] in x.whole;
      } else {
        assert s[0] == '.';
      }
    } else {
      assert s[0] == x.sign[0];
    }
  }

  /** What is written is read back. */
  lemma PrintReads(x: Spelling)
    requires x.Valid()
    ensures Read(x.Print()) == Some(x)
  {
    PrintedPieces(x);
    CutsOfPrinted(x);
    ReadTailOf(x.tail);
    ReadAt(x, x.Print(), CutsFor(x));
  }

  lemma ReadAt(x: Spelling, s: string, c: Cuts)
    requires c.sign <= c.whole <= c.point <= c.fraction <= |s| && CutsOf(s) == c
    requires s[..c.sign] == x.sign && s[c.sign..c.whole] == x.whole && s[c.point..c.fraction] == x.fraction
    requires x.point == (c.point > c.whole) && ReadTail(s[c.fraction..]) == Some(x.tail)
    requires x.whole != "" || x.fraction != ""
    ensures Read(s) == Some(x)
  {
  }

  // ----- parsing -----

  /** The text without the white space, and then without the quotes, around it. */
  function Bare(text: string): string {
    var spaces, quotes := (c: char) => IsSpace(c), (c: char) => c == '"' || c == '\'';
    StripBack(StripFront(StripBack(StripFront(text, spaces), spaces), quotes), quotes)
  }

  /** What is bare has lost the white space around it, and then the quotes of both kinds. */
  lemma BareExact(text: string, spaces: char -> bool, quotes: char -> bool)
    returns (inner: string, i: nat, j: nat, m: nat, n: nat)
    requires spaces == ((c: char) => IsSpace(c)) && quotes == ((c: char) => c == '"' || c == '\'')
    ensures Stripped(text, inner, spaces, i, j) && Stripped(inner, Bare(text), quotes, m, n)
  {
    inner := StripBack(StripFront(text, spaces), spaces);
    i, j := StripsBothEnds(text, spaces);
    m, n := StripsBothEnds(inner, quotes);
  }

  /** A quantity, or None for a text that is none and for a negative one. */
  function ParseQuantity(text: string): (r: Option<Quantity>)
    ensures r.Some? ==> r.value.Valid()
  {
    var x :- Read(Bare(text));
    ReadPrints(Bare(text));
    x.Value()
  }

  /** Parsing is exact: it accepts just the written forms, and gives the value each form denotes. */
  lemma ParseExact(text: string, q: Quantity)
    ensures ParseQuantity(text) == Some(q)
            <==> exists x: Spelling :: x.Valid() && x.Print() == Bare(text) && x.Value() == Some(q)
  {
    if ParseQuantity(text) == Some(q) {
      ReadPrints(Bare(text));
    }
    forall x: Spelling | x.Valid() && x.Print() == Bare(text)
      ensures Read(Bare(text)) == Some(x)
    {
      PrintReads(x);
    }
  }

  /** A quantity in units of 1/perUnit; None where the script raises InvalidQuantity. */
  function CountText(text: string, perUnit: nat): Option<nat> {
    var q :- ParseQuantity(text);
    InUnits(q, perUnit)
  }

  /** CPU in millicores. */
  function ParseCpu(text: string): Option<nat> {
    CountText(text, 1000)
  }

  /** Memory or ephemeral storage in bytes. */
  function ParseMemory(text: string): Option<nat> {
    CountText(text, 1)
  }

  /** From text to count: the exact ceiling of the value written, or a refusal. */
  lemma CountTextExact(text: string, x: Spelling, perUnit: nat)
    requires x.Valid() && x.Print() == Bare(text) && perUnit > 0
    ensures x.Value().None? ==> CountText(text, perUnit).None?
    ensures x.Value().Some? ==>
      var q := x.Value().value; IsCount(CountText(text, perUnit), q.Above(perUnit), q.Below())
  {
    PrintReads(x);
    if x.Value().Some? {
      InUnitsExact(x.Value().value, perUnit);
    }
  }
}
