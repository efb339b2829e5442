/** Character classes and string helpers shared by the readers below. */
module Text {

  datatype Option<+T> = None | Some(value: T) {
    predicate IsFailure() {
      None?
    }

    function PropagateFailure<U>(): Option<U>
      requires None?
    {
      None
    }

    function Extract(): T
      requires Some?
    {
      value
    }
  }

  predicate IsDigit(c: char) {
    '0' <= c <= '9'
  }

  predicate IsAsciiLetterOrDigit(c: char) {
    'a' <= c <= 'z' || 'A' <= c <= 'Z' || IsDigit(c)
  }

  /** What Python's `str.isspace` and the regular expression class `\s` accept. */
  predicate IsSpace(c: char) {
    var n := c as int;
    9 <= n <= 13 || 28 <= n <= 32 || n == 0x85 || n == 0xA0 || n == 0x1680 || 0x2000 <= n <= 0x200A
    || n == 0x2028 || n == 0x2029 || n == 0x202F || n == 0x205F || n == 0x3000
  }

  /** The class `\w`. Every character beyond ASCII that is not a space counts as a word character. */
  predicate IsWord(c: char) {
    IsAsciiLetterOrDigit(c) || c == '_' || (c as int >= 128 && !IsSpace(c))
  }

  predicate IsAscii(s: string) {
    forall c <- s :: c as int < 128
  }

  function StripFront(s: string, drop: char -> bool): string {
    if s != "" && drop(s[0]) then StripFront(s[1..], drop) else s
  }

  function StripBack(s: string, drop: char -> bool): string {
    if s != "" && drop(s[|s| - 1]) then StripBack(s[..|s| - 1], drop) else s
  }

  function Strip(s: string): string {
    StripBack(StripFront(s, IsSpace), IsSpace)
  }

  lemma {:induction false} FrontStripped(s: string, drop: char -> bool) returns (n: nat)
    ensures n <= |s| && StripFront(s, drop) == s[n..] && (forall k | 0 <= k < n :: drop(s[k]))
    ensures n < |s| ==> !drop(s[n])
  {
    n := 0;
    if s != "" && drop(s[0]) {
      var m := FrontStripped(s[1..], drop);
      n := m + 1;
      assert forall k | 0 <= k < m :: s[1..][k] == s[k + 1];
    }
  }

  lemma {:induction false} BackStripped(s: string, drop: char -> bool) returns (n: nat)
    ensures n <= |s| && StripBack(s, drop) == s[..n] && (forall k | n <= k < |s| :: drop(s[k]))
    ensures n > 0 ==> !drop(s[n - 1])
  {
    n := |s|;
    if s != "" && drop(s[|s| - 1]) {
      n := BackStripped(s[..|s| - 1], drop);
    }
  }

  /** `t` stands in `s` from `i` to `j`; what stands around it is dropped, and nothing at its ends would be. */
  ghost predicate Stripped(s: string, t: string, drop: char -> bool, i: nat, j: nat) {
    && i <= j <= |s| && t == s[i..j]
    && (forall k | 0 <= k < i :: drop(s[k])) && (forall k | j <= k < |s| :: drop(s[k]))
    && (t != "" ==> !drop(t[0]) && !drop(t[|t| - 1]))
  }

  lemma StripsBothEnds(s: string, drop: char -> bool) returns (i: nat, j: nat)
    ensures Stripped(s, StripBack(StripFront(s, drop), drop), drop, i, j)
  {
    i := FrontStripped(s, drop);
    var n := BackStripped(s[i..], drop);
    j := i + n;
    assert s[i..][..n] == s[i..j];
    assert forall k | j <= k < |s| :: s[i..][k - i] == s[k];
  }

  /** Stripping takes the white space off both ends, all of it and nothing else. */
  lemma StripExact(s: string) returns (i: nat, j: nat)
    ensures Stripped(s, Strip(s), IsSpace, i, j)
  {
    i, j := StripsBothEnds(s, IsSpace);
  }

  /** Only white space stands from `i` up to `j`. */
  ghost predicate Blank(s: string, i: nat, j: nat) {
    i <= j <= |s| && forall k {:trigger IsSpace(s[k])} | i <= k < j :: IsSpace(s[k])
  }

  /** The first position from `i` on that holds no white space. */
  function SkipSpace(s: string, i: nat): (j: nat)
    requires i <= |s|
    ensures i <= j <= |s|
    decreases |s| - i
  {
    if i < |s| && IsSpace(s[i]) then SkipSpace(s, i + 1) else i
  }

  lemma {:induction false} SkipsBlank(s: string, i: nat)
    requires i <= |s|
    ensures Blank(s, i, SkipSpace(s, i))
    ensures SkipSpace(s, i) < |s| ==> !IsSpace(s[SkipSpace(s, i)])
    decreases |s| - i
  {
    if i < |s| && IsSpace(s[i]) {
      SkipsBlank(s, i + 1);
    }
  }

  lemma {:induction false} SkipBlank(s: string, i: nat, j: nat)
    requires Blank(s, i, j)
    ensures SkipSpace(s, i) == SkipSpace(s, j)
    decreases j - i
  {
    if i < j {
      SkipBlank(s, i + 1, j);
    }
  }

  /** The first position from `i` on that holds `c`, or the end. */
  function Find(s: string, i: nat, c: char): (j: nat)
    requires i <= |s|
    ensures i <= j <= |s|
    decreases |s| - i
  {
    if i < |s| && s[i] != c then Find(s, i + 1, c) else i
  }

  lemma {:induction false} Finds(s: string, i: nat, c: char)
    requires i <= |s|
    ensures forall k | i <= k < Find(s, i, c) :: s[k] != c
    ensures Find(s, i, c) < |s| ==> s[Find(s, i, c)] == c
    decreases |s| - i
  {
    if i < |s| && s[i] != c {
      Finds(s, i + 1, c);
    }
  }

  /** `part` stands in `s` at position `i`. */
  predicate At(s: string, i: nat, part: string) {
    i + |part| <= |s| && s[i..i + |part|] == part
  }

  /** Whether `part` occurs in `s`. */
  predicate Contains(s: string, part: string) {
    part <= s || (s != "" && Contains(s[1..], part))
  }
}
