// String helpers with the semantics of the Python string operations the
// core uses: `in`, `str.replace(p, '')`, `str.rfind`, `str(int)` and a
// match of the regular expression "[0-9]+$".

module Text {

  predicate IsDigit(c: char) { '0' <= c <= '9' }

  predicate AllDigits(s: string) { forall i :: 0 <= i < |s| ==> IsDigit(s[i]) }

  /** `p` occurs in `s` at position `i`. */
  predicate At(s: string, p: string, i: int)
  {
    0 <= i && i + |p| <= |s| && s[i..i + |p|] == p
  }

  /** Python's `p in s`. */
  predicate Contains(s: string, p: string)
  {
    exists i :: 0 <= i <= |s| - |p| && At(s, p, i)
  }

  /** Python's `s.replace(p, '')`: scans left to right and deletes every
      non-overlapping occurrence of the non-empty pattern `p`. */
  function RemoveAll(s: string, p: string): (r: string)
    requires p != []
    ensures |r| <= |s|
    ensures Contains(s, p) ==> |r| <= |s| - |p|
    ensures !Contains(s, p) ==> r == s
    decreases |s|
  {
    if |s| < |p| then
      NoRoomNoMatch(s, p);
      s
    else if s[..|p|] == p then
      assert At(s, p, 0);
      RemoveAll(s[|p|..], p)
    else
      var rest := RemoveAll(s[1..], p);
      ContainsShift(s, p);
      assert !Contains(s[1..], p) ==> [s[0]] + s[1..] == s;
      [s[0]] + rest
  }

  lemma NoRoomNoMatch(s: string, p: string)
    requires |s| < |p|
    ensures !Contains(s, p)
  {
  }

  /** When `p` does not start `s`, it occurs in `s` exactly when it occurs in `s[1..]`. */
  lemma ContainsShift(s: string, p: string)
    requires |s| >= |p| && s != [] && s[..|p|] != p
    ensures Contains(s, p) <==> Contains(s[1..], p)
  {
    if Contains(s, p) {
      var i :| 0 <= i <= |s| - |p| && At(s, p, i);
      assert i != 0;
      assert s[1..][i - 1..i - 1 + |p|] == s[i..i + |p|];
      assert At(s[1..], p, i - 1);
    }
    if Contains(s[1..], p) {
      var i :| 0 <= i <= |s[1..]| - |p| && At(s[1..], p, i);
      assert s[i + 1..i + 1 + |p|] == s[1..][i..i + |p|];
      assert At(s, p, i + 1);
    }
  }

  /** Python's `re.match("[0-9]+$", s) is not None`: one or more digits from
      the start, then the end of the string or a single final newline
      (where `$` also matches). */
  predicate MatchesDigitsToEnd(s: string)
  {
    || (|s| >= 1 && AllDigits(s))
    || (|s| >= 2 && s[|s| - 1] == '\n' && AllDigits(s[..|s| - 1]))
  }

  /** The value of a run of decimal digits. */
  function DigitsValue(s: string): (n: nat)
    requires AllDigits(s)
  {
    if s == [] then 0
    else DigitsValue(s[..|s| - 1]) * 10 + (s[|s| - 1] - '0') as int
  }

  /** Python's `int(s)` for a string accepted by MatchesDigitsToEnd
      (`int` ignores the surrounding whitespace). */
  function ParseDevice(s: string): (n: nat)
    requires MatchesDigitsToEnd(s)
  {
    if AllDigits(s) then DigitsValue(s) else DigitsValue(s[..|s| - 1])
  }

  function DigitChar(d: nat): (c: char)
    requires d < 10
    ensures IsDigit(c) && (c - '0') as int == d
  {
    ('0' as int + d) as char
  }

  /** Python's `str(n)` for a natural number. */
  function NatToString(n: nat): (s: string)
    ensures s != [] && AllDigits(s)
    ensures DigitsValue(s) == n
    decreases n
  {
    if n < 10 then [DigitChar(n)]
    else
      var s := NatToString(n / 10) + [DigitChar(n % 10)];
      assert s[..|s| - 1] == NatToString(n / 10);
      s
  }

  /** Python's `str(n)` for any integer. */
  function IntToString(n: int): (s: string)
  {
    if n < 0 then "-" + NatToString(-n) else NatToString(n)
  }

  /** Python's `s.rfind(c)`: the last index of `c`, or -1. */
  function RFind(s: string, c: char): (i: int)
    ensures -1 <= i < |s|
    ensures i >= 0 ==> s[i] == c
    ensures forall j :: i < j < |s| ==> s[j] != c
  {
    if s == [] then -1
    else if s[|s| - 1] == c then |s| - 1
    else RFind(s[..|s| - 1], c)
  }
}
