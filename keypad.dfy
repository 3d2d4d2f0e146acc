/** The value-level part of the passcode keypad: what a key press or a delete
    does to the entered code, and the six-dot indicator that shows how much of
    the code has been typed. The stateful gate in module Gate is specified by
    these functions. */
module Keypad {

  /** The keypad accepts at most this many characters. */
  const MaxLength: nat := 6

  /** Number of dots in the code indicator. */
  const DotCount: nat := 6

  function Min(a: int, b: int): int { if a <= b then a else b }

  function Max(a: int, b: int): int { if a <= b then b else a }

  predicate IsDigitChar(c: char) { '0' <= c <= '9' }

  predicate IsDigits(s: string) { forall i :: 0 <= i < |s| ==> IsDigitChar(s[i]) }

  /** A key value on the keypad: the buttons 1..9 and 0. */
  predicate IsKey(d: int) { 0 <= d <= 9 }

  predicate AreKeys(ds: seq<int>) { forall i :: 0 <= i < |ds| ==> IsKey(ds[i]) }

  /** The decimal value of a digit character. */
  function DigitValue(c: char): int
    requires IsDigitChar(c)
  {
    c as int - '0' as int
  }

  /** The text JavaScript produces for a one-digit number in `string + number`. */
  function DigitChar(d: int): (c: char)
    requires IsKey(d)
    ensures IsDigitChar(c) && DigitValue(c) == d
  {
    ('0' as int + d) as char
  }

  /** The text of a sequence of key presses, one character per key. */
  function DigitsText(ds: seq<int>): (s: string)
    requires AreKeys(ds)
    ensures |s| == |ds|
    ensures forall i :: 0 <= i < |ds| ==> s[i] == DigitChar(ds[i])
    ensures IsDigits(s)
  {
    if ds == [] then [] else [DigitChar(ds[0])] + DigitsText(ds[1..])
  }

  /** JavaScript's normalisation of a `slice` bound: a negative bound counts
      from the end, and every bound is clamped to [0, len]. */
  function SliceBound(k: int, len: nat): nat
  {
    if k < 0 then (if len + k < 0 then 0 else len + k)
    else if k < len then k else len
  }

  /** `s.slice(start, end)`: the characters between the normalised bounds, or
      the empty string when the bounds cross. */
  function Slice(s: string, start: int, end: int): string
  {
    var from, to := SliceBound(start, |s|), SliceBound(end, |s|);
    if from < to then s[from..to] else []
  }

  /** Cutting a string at any position and slicing out both sides gives the
      string back. */
  lemma SliceSplit(s: string, k: int)
    requires 0 <= k <= |s|
    ensures Slice(s, 0, k) + Slice(s, k, |s|) == s
  {
  }

  /** A negative end `-j` drops the last `j` characters, and the whole string
      when it has no more than `j`. An end of 0 (also `-0`) gives the empty
      string. */
  lemma SliceFromEnd(s: string, j: int)
    ensures 0 < j ==> Slice(s, 0, -j) == s[..Max(|s| - j, 0)]
    ensures Slice(s, 0, 0) == []
  {
  }

  /** The code after pressing key `d`: the digit is appended only while the
      code is shorter than MaxLength; a full code is left as it is. */
  function Appended(input: string, d: int): (r: string)
    requires IsKey(d)
    ensures |input| < MaxLength ==> |r| == |input| + 1 && r[..|input|] == input && r[|input|] == DigitChar(d)
    ensures |input| >= MaxLength ==> r == input
  {
    if |input| < MaxLength then input + [DigitChar(d)] else input
  }

  /** The code after pressing delete: `prev.slice(0, -1)`. */
  function Deleted(input: string): (r: string)
    ensures input == [] ==> r == []
    ensures input != [] ==> r == input[..|input| - 1] && |r| == |input| - 1
  {
    Slice(input, 0, -1)
  }

  /** Appending a digit to a code with room and then deleting gives back the
      code. */
  lemma DeleteUndoesAppend(input: string, d: int)
    requires IsKey(d) && |input| < MaxLength
    ensures Deleted(Appended(input, d)) == input
  {
  }

  /** Both edits keep a code within MaxLength characters and made of
      digits. */
  lemma EditsKeepCodeWellFormed(input: string, d: int)
    requires IsKey(d) && |input| <= MaxLength && IsDigits(input)
    ensures |Appended(input, d)| <= MaxLength && IsDigits(Appended(input, d))
    ensures |Deleted(input)| <= MaxLength && IsDigits(Deleted(input))
  {
  }

  /** The code after pressing the keys `ds` in order, starting from `input`. */
  function Typed(input: string, ds: seq<int>): string
    requires AreKeys(ds)
    decreases |ds|
  {
    if ds == [] then input else Typed(Appended(input, ds[0]), ds[1..])
  }

  /** Pressing keys keeps exactly the first MaxLength characters of what was
      typed: the presses that found the code full are dropped, the others are
      kept in order. */
  lemma {:induction false} TypedKeepsPrefix(input: string, ds: seq<int>)
    requires AreKeys(ds) && |input| <= MaxLength
    ensures Min(|input| + |ds|, MaxLength) <= |input + DigitsText(ds)|
    ensures Typed(input, ds) == (input + DigitsText(ds))[..Min(|input| + |ds|, MaxLength)]
    decreases |ds|
  {
    if ds != [] {
      var a := Appended(input, ds[0]);
      var rest := ds[1..];
      assert Typed(input, ds) == Typed(a, rest);
      TypedKeepsPrefix(a, rest);
      var text, restText := DigitsText(ds), DigitsText(rest);
      assert text == [DigitChar(ds[0])] + restText;
      if |input| < MaxLength {
        assert a == input + [DigitChar(ds[0])];
        ConcatAssoc(input, [DigitChar(ds[0])], restText);
        assert |a| + |rest| == |input| + |ds|;
      } else {
        assert a == input;
        assert (input + restText)[..|input|] == input;
        assert (input + text)[..|input|] == input;
      }
    }
  }

  /** Stated on its own, so that it is proved outside the larger context above. */
  lemma ConcatAssoc(s: string, t: string, u: string)
    ensures (s + t) + u == s + (t + u)
  {
  }

  /** From an empty code, N key presses leave exactly min(N, MaxLength)
      characters: the first keys pressed, in order. */
  lemma TypedFromEmpty(ds: seq<int>)
    requires AreKeys(ds)
    ensures |Typed([], ds)| == Min(|ds|, MaxLength)
    ensures Typed([], ds) == DigitsText(ds)[..Min(|ds|, MaxLength)]
  {
    TypedKeepsPrefix([], ds);
    assert [] + DigitsText(ds) == DigitsText(ds);
  }

  /** The indicator: dot `i` of DotCount is filled iff i < the code's length. */
  function Dots(input: string): (dots: seq<bool>)
    ensures |dots| == DotCount
    ensures forall i :: 0 <= i < DotCount ==> (dots[i] <==> i < |input|)
  {
    seq(DotCount, i => i < |input|)
  }

  /** Number of filled dots. */
  function FilledCount(dots: seq<bool>): (n: nat)
    ensures n <= |dots|
  {
    if dots == [] then 0 else (if dots[0] then 1 else 0) + FilledCount(dots[1..])
  }

  /** A row of dots filled from the left up to `k` has min(k, its length)
      filled dots. */
  lemma {:induction false} FilledPrefixCount(dots: seq<bool>, k: nat)
    requires forall i :: 0 <= i < |dots| ==> (dots[i] <==> i < k)
    ensures FilledCount(dots) == Min(k, |dots|)
  {
    if dots != [] {
      var rest := dots[1..];
      if k == 0 {
        assert !dots[0];
        FilledPrefixCount(rest, 0);
      } else {
        assert dots[0];
        forall i | 0 <= i < |rest| ensures (rest[i] <==> i < k - 1) {
          assert rest[i] == dots[i + 1];
        }
        FilledPrefixCount(rest, k - 1);
      }
    }
  }

  /** The indicator shows min(length, DotCount) filled dots. */
  lemma FilledDotsMatchLength(input: string)
    ensures FilledCount(Dots(input)) == Min(|input|, DotCount)
  {
    FilledPrefixCount(Dots(input), |input|);
  }
}
