/** String helpers with Python's semantics: `str.strip`, the ASCII digit test
    and the first match of the numeric pattern `[-+]?[0-9]*\.?[0-9]+` that
    `convert_to_number` takes from `re.findall`. */
module Text {
  import opened Wrappers

  /** The characters for which Python's `str.isspace()` holds; a bare
      `str.strip()` removes exactly these. */
  predicate IsSpace(c: char)
  {
    var n := c as int;
    (9 <= n <= 13) || (28 <= n <= 32) || n == 0x85 || n == 0xA0 || n == 0x1680
    || (0x2000 <= n <= 0x200A) || n == 0x2028 || n == 0x2029 || n == 0x202F
    || n == 0x205F || n == 0x3000
  }

  /** The argument of `str.strip`: absent (whitespace) or a string of characters. */
  datatype StripSet = Whitespace | Chars(chars: string)

  predicate Strippable(c: char, st: StripSet)
  {
    match st
    case Whitespace => IsSpace(c)
    case Chars(cs) => c in cs
  }

  /** Where `lstrip` stops when it starts at position `i`: the first position
      at or after `i` holding a character that is not strippable. */
  function StripStart(s: string, st: StripSet, i: nat): (j: nat)
    requires i <= |s|
    ensures i <= j <= |s|
    ensures forall k :: i <= k < j ==> Strippable(s[k], st)
    ensures j == |s| || !Strippable(s[j], st)
    decreases |s| - i
  {
    if i < |s| && Strippable(s[i], st) then StripStart(s, st, i + 1) else i
  }

  /** Where `rstrip` stops when it works back from position `j` and may not
      pass `lo`: the end of the kept slice. */
  function StripEnd(s: string, st: StripSet, lo: nat, j: nat): (e: nat)
    requires lo <= j <= |s|
    ensures lo <= e <= j
    ensures forall k :: e <= k < j ==> Strippable(s[k], st)
    ensures e == lo || !Strippable(s[e - 1], st)
  {
    if j > lo && Strippable(s[j - 1], st) then StripEnd(s, st, lo, j - 1) else j
  }

  /** `s.strip(...)`: `lstrip` then `rstrip`. The result is the slice between
      the two stopping points: everything cut off on either side is
      strippable, and the kept slice neither starts nor ends with a strippable
      character. */
  function Strip(s: string, st: StripSet): (r: string)
    ensures var i := StripStart(s, st, 0);
      i + |r| <= |s| && r == s[i..i + |r|]
      && (forall k :: 0 <= k < i ==> Strippable(s[k], st))
      && (forall k :: i + |r| <= k < |s| ==> Strippable(s[k], st))
    ensures r == [] || (!Strippable(r[0], st) && !Strippable(r[|r| - 1], st))
  {
    var i := StripStart(s, st, 0);
    s[i..StripEnd(s, st, i, |s|)]
  }

  /** The stripped string occurs in the original where `lstrip` stops. */
  lemma StripOccurs(s: string, st: StripSet)
    ensures OccursAt(Strip(s, st), s, StripStart(s, st, 0))
  {
  }

  /** A string whose ends are not strippable is left as it is. */
  lemma StripFixed(s: string, st: StripSet)
    requires s == [] || (!Strippable(s[0], st) && !Strippable(s[|s| - 1], st))
    ensures Strip(s, st) == s
  {
  }

  /** Stripping twice is stripping once. */
  lemma StripIdempotent(s: string, st: StripSet)
    ensures Strip(Strip(s, st), st) == Strip(s, st)
  {
    StripFixed(Strip(s, st), st);
  }

  /** `n` occurs in `s` starting at position `p`. */
  predicate OccursAt(n: string, s: string, p: nat)
  {
    p + |n| <= |s| && s[p..p + |n|] == n
  }

  predicate IsDigit(c: char)
  {
    '0' <= c <= '9'
  }

  predicate HasDigit(s: string)
  {
    exists k :: 0 <= k < |s| && IsDigit(s[k])
  }

  /** The end of the longest run of digits starting at `j`. */
  function DigitsEnd(s: string, j: nat): (e: nat)
    requires j <= |s|
    ensures j <= e <= |s|
    ensures forall k :: j <= k < e ==> IsDigit(s[k])
    ensures e == |s| || !IsDigit(s[e])
    decreases |s| - j
  {
    if j < |s| && IsDigit(s[j]) then DigitsEnd(s, j + 1) else j
  }

  /** Where the digits start once the optional `[-+]` at `i` is taken. */
  function AfterSign(s: string, i: nat): nat
    requires i <= |s|
  {
    if i < |s| && (s[i] == '+' || s[i] == '-') then i + 1 else i
  }

  /** The numeric pattern matches at position `i`: after the optional sign
      there is a digit, or a dot followed by a digit. */
  predicate NumberStartsAt(s: string, i: nat)
    requires i <= |s|
  {
    var j := AfterSign(s, i);
    (j < |s| && IsDigit(s[j])) || (j + 1 < |s| && s[j] == '.' && IsDigit(s[j + 1]))
  }

  /** Where the backtracking match starting at `i` ends: greedy digits, then a
      dot and more digits if a digit follows the dot; otherwise the integer
      part alone (its last digit serving as the mandatory `[0-9]+`). */
  function NumberEnd(s: string, i: nat): (e: nat)
    requires i <= |s| && NumberStartsAt(s, i)
    ensures i < e <= |s|
    ensures IsDigit(s[e - 1]) && (e == |s| || !IsDigit(s[e]))
    ensures forall k :: AfterSign(s, i) <= k < e ==>
      IsDigit(s[k]) || (s[k] == '.' && k == DigitsEnd(s, AfterSign(s, i)))
    ensures (forall k :: AfterSign(s, i) <= k < e ==> IsDigit(s[k])) ==>
      !(e + 1 < |s| && s[e] == '.' && IsDigit(s[e + 1]))
  {
    var j := AfterSign(s, i);
    var k := DigitsEnd(s, j);
    if k + 1 < |s| && s[k] == '.' && IsDigit(s[k + 1]) then
      assert !IsDigit(s[k]);
      DigitsEnd(s, k + 1)
    else
      k
  }

  /** The leftmost match of the numeric pattern at or after position `i`. */
  function FirstNumeralFrom(s: string, i: nat): (r: Option<string>)
    requires i <= |s|
    ensures r.None? <==> forall q :: i <= q < |s| ==> !NumberStartsAt(s, q)
    decreases |s| - i
  {
    if i == |s| then None
    else if NumberStartsAt(s, i) then Some(s[i..NumberEnd(s, i)])
    else FirstNumeralFrom(s, i + 1)
  }

  /** `re.findall(r"[-+]?[0-9]*\.?[0-9]+", s)[0]`, or None when the list is empty. */
  function FirstNumeral(s: string): (r: Option<string>)
    ensures r.None? <==> forall q :: 0 <= q < |s| ==> !NumberStartsAt(s, q)
  {
    FirstNumeralFrom(s, 0)
  }

  /** `re.findall` scans left to right: the first element is the match at the
      leftmost position where the pattern matches. */
  lemma {:induction false} FirstNumeralIsLeftmost(s: string, i: nat, p: nat)
    requires i <= p < |s| && NumberStartsAt(s, p)
    requires forall q :: i <= q < p ==> !NumberStartsAt(s, q)
    ensures FirstNumeralFrom(s, i) == Some(s[p..NumberEnd(s, p)])
    decreases p - i
  {
    if i < p {
      assert FirstNumeralFrom(s, i) == FirstNumeralFrom(s, i + 1);
      FirstNumeralIsLeftmost(s, i + 1, p);
    }
  }

  /** "0.5" is read whole, not as the "0" before its dot. */
  lemma HalfNumeral()
    ensures FirstNumeral("0.5") == Some("0.5")
  {
    var s := "0.5";
    assert AfterSign(s, 0) == 0;
    assert DigitsEnd(s, 1) == 1;
    assert DigitsEnd(s, 0) == 1;
    assert DigitsEnd(s, 3) == 3;
    assert DigitsEnd(s, 2) == 3;
    assert NumberEnd(s, 0) == 3;
    assert NumberStartsAt(s, 0);
    assert s[0..3] == s;
  }

  /** A match exists at or after `i` exactly when a digit does. */
  lemma NumeralFromIffDigit(s: string, i: nat)
    requires i <= |s|
    ensures FirstNumeralFrom(s, i).Some? <==> exists k :: i <= k < |s| && IsDigit(s[k])
  {
    if k :| i <= k < |s| && IsDigit(s[k]) {
      DigitStartsNumeral(s, k);
    }
    if FirstNumeralFrom(s, i).Some? {
      var q :| i <= q < |s| && NumberStartsAt(s, q);
      var j := AfterSign(s, q);
      if j < |s| && IsDigit(s[j]) {
        assert i <= j < |s|;
      } else {
        assert i <= j + 1 < |s| && IsDigit(s[j + 1]);
      }
    }
  }

  /** The match found at or after `i` holds a digit and occurs there. */
  lemma {:induction false} NumeralFromFindsDigit(s: string, i: nat)
    requires i <= |s|
    ensures FirstNumeralFrom(s, i).Some? ==>
      var n := FirstNumeralFrom(s, i).value;
      HasDigit(n) && exists p: nat :: i <= p && OccursAt(n, s, p)
    decreases |s| - i
  {
    if i == |s| {
    } else if NumberStartsAt(s, i) {
      NumeralAtHasDigit(s, i);
      assert OccursAt(s[i..NumberEnd(s, i)], s, i);
    } else {
      assert FirstNumeralFrom(s, i) == FirstNumeralFrom(s, i + 1);
      NumeralFromFindsDigit(s, i + 1);
      if FirstNumeralFrom(s, i + 1).Some? {
        var n := FirstNumeralFrom(s, i + 1).value;
        var p: nat :| i + 1 <= p && OccursAt(n, s, p);
        assert i <= p && OccursAt(n, s, p);
      }
    }
  }

  /** A match of the numeric pattern holds a digit. */
  lemma NumeralAtHasDigit(s: string, i: nat)
    requires i < |s| && NumberStartsAt(s, i)
    ensures HasDigit(s[i..NumberEnd(s, i)])
  {
    var j := AfterSign(s, i);
    var e := NumberEnd(s, i);
    var d := if j < |s| && IsDigit(s[j]) then j else j + 1;
    assert i <= d < e by {
      if !(j < |s| && IsDigit(s[j])) {
        assert DigitsEnd(s, j) == j;
      }
    }
    assert s[i..e][d - i] == s[d];
  }

  /** The numeric pattern matches at every digit. */
  lemma DigitStartsNumeral(s: string, i: nat)
    requires i < |s| && IsDigit(s[i])
    ensures NumberStartsAt(s, i)
  {
    assert AfterSign(s, i) == i;
  }

  /** A numeric substring exists exactly when the string holds an ASCII digit;
      the substring found holds a digit and occurs in the string. */
  lemma NumeralExistsIffDigit(s: string)
    ensures FirstNumeral(s).Some? <==> HasDigit(s)
    ensures FirstNumeral(s).Some? ==>
      var n := FirstNumeral(s).value;
      HasDigit(n) && exists p: nat :: OccursAt(n, s, p)
  {
    NumeralFromIffDigit(s, 0);
    NumeralFromFindsDigit(s, 0);
  }
}
