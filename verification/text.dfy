/** The handful of JavaScript string operations the link formatter relies on
    (`trim`, `toLowerCase`, `replace` with a string pattern, `replace(/\D/g, '')`
    and `startsWith`), on `seq<char>`, restricted to ASCII. */
module Text {

  /** Characters `String.prototype.trim` removes (ASCII subset). */
  predicate IsSpace(c: char) {
    c == ' ' || c == '\t' || c == '\n' || c == '\r' || c as int == 11 || c as int == 12
  }

  /** Characters the regular-expression class `\d` matches: ASCII 0-9 only. */
  predicate IsDigit(c: char) {
    '0' <= c <= '9'
  }

  predicate AllSpace(s: string) {
    forall k :: 0 <= k < |s| ==> IsSpace(s[k])
  }

  /** No leading and no trailing white space. */
  predicate IsTrimmed(s: string) {
    s == [] || (!IsSpace(s[0]) && !IsSpace(s[|s| - 1]))
  }

  /** `s.endsWith(t)`. */
  predicate EndsWith(s: string, t: string) {
    |t| <= |s| && s[|s| - |t|..] == t
  }

  // ---------------------------------------------------------------------------
  // trim

  /** Drops the leading white space: the result is a suffix of `s` and
      everything cut off is white space. */
  function TrimStart(s: string): (r: string)
    ensures |r| <= |s| && r == s[|s| - |r|..]
    ensures AllSpace(s[..|s| - |r|])
    ensures r == [] || !IsSpace(r[0])
  {
    if s != [] && IsSpace(s[0]) then TrimStart(s[1..]) else s
  }

  /** Drops the trailing white space: the result is a prefix of `s` and
      everything cut off is white space. */
  function TrimEnd(s: string): (r: string)
    ensures |r| <= |s| && r == s[..|r|]
    ensures AllSpace(s[|r|..])
    ensures r == [] || !IsSpace(r[|r| - 1])
  {
    if s != [] && IsSpace(s[|s| - 1]) then TrimEnd(s[..|s| - 1]) else s
  }

  /** `s.trim()`: white space cut off both ends (see `TrimIsSlice`). */
  function Trim(s: string): (r: string)
    ensures IsTrimmed(r) && |r| <= |s|
  {
    var t := TrimStart(s);
    var r := TrimEnd(t);
    assert r == [] || !IsSpace(r[0]) by {
      if r != [] { assert r[0] == t[0]; }
    }
    r
  }

  /** What `trim` keeps is a middle slice of its input, and everything it
      cuts off is white space. */
  lemma TrimIsSlice(s: string) returns (i: nat, j: nat)
    ensures i <= j <= |s| && Trim(s) == s[i..j]
    ensures AllSpace(s[..i]) && AllSpace(s[j..])
  {
    var t := TrimStart(s);
    var r := TrimEnd(t);
    i, j := |s| - |t|, |s| - |t| + |r|;
    assert r == s[i..j];
    assert s[j..] == t[|r|..];
  }

  lemma {:induction false} TrimStartOfTrimmed(s: string)
    requires s == [] || !IsSpace(s[0])
    ensures TrimStart(s) == s
  {
  }

  lemma {:induction false} TrimEndOfTrimmed(s: string)
    requires s == [] || !IsSpace(s[|s| - 1])
    ensures TrimEnd(s) == s
  {
  }

  /** A string without surrounding white space is its own trim. */
  lemma {:induction false} TrimOfTrimmed(s: string)
    requires IsTrimmed(s)
    ensures Trim(s) == s
  {
    TrimStartOfTrimmed(s);
    TrimEndOfTrimmed(s);
  }

  /** Trimming twice is trimming once. */
  lemma TrimIdempotent(s: string)
    ensures Trim(Trim(s)) == Trim(s)
  {
    TrimOfTrimmed(Trim(s));
  }

  /** A string of white space only trims to the empty string. */
  lemma {:induction false} TrimAllSpace(s: string)
    requires AllSpace(s)
    ensures Trim(s) == []
  {
    var i, j := TrimIsSlice(s);
    if i < j {
      assert IsSpace(s[i]);
    }
  }

  /** Prepending a non-space character to a string without trailing white
      space gives a string that `trim` leaves alone. */
  lemma {:induction false} TrimOfGuardedConcat(pre: string, s: string)
    requires pre != [] && !IsSpace(pre[0]) && !IsSpace(pre[|pre| - 1])
    requires s == [] || !IsSpace(s[|s| - 1])
    ensures Trim(pre + s) == pre + s
  {
    var t := pre + s;
    assert t[0] == pre[0];
    if s == [] {
      assert t == pre;
    } else {
      assert t[|t| - 1] == s[|s| - 1];
    }
    TrimOfTrimmed(t);
  }

  // ---------------------------------------------------------------------------
  // toLowerCase

  function LowerChar(c: char): (d: char)
    ensures !('A' <= d <= 'Z')
    ensures !('A' <= c <= 'Z') ==> d == c
  {
    if 'A' <= c <= 'Z' then (c as int - 'A' as int + 'a' as int) as char else c
  }

  /** `s.toLowerCase()` on ASCII: same length, every upper-case letter lowered,
      every other character kept. */
  function ToLower(s: string): (r: string)
    ensures |r| == |s|
    ensures forall k :: 0 <= k < |s| ==> r[k] == LowerChar(s[k])
  {
    if s == [] then [] else [LowerChar(s[0])] + ToLower(s[1..])
  }

  /** Lowering an already lowered string changes nothing. */
  lemma ToLowerIdempotent(s: string)
    ensures ToLower(ToLower(s)) == ToLower(s)
  {
    var l := ToLower(s);
    assert forall k :: 0 <= k < |l| ==> LowerChar(l[k]) == l[k];
  }

  // ---------------------------------------------------------------------------
  // replace('c', '') — only the first occurrence

  /** `s.indexOf(c)`: -1 when `c` does not occur, otherwise the position of
      its first occurrence. */
  function IndexOf(s: string, c: char): (r: int)
    ensures r == -1 <==> c !in s
    ensures r != -1 ==> 0 <= r < |s| && s[r] == c && c !in s[..r]
  {
    if s == [] then -1
    else if s[0] == c then 0
    else
      var k := IndexOf(s[1..], c);
      if k == -1 then -1 else k + 1
  }

  /** `s.replace(c, '')` with a one-character string pattern: removes the
      FIRST occurrence of `c` only. */
  function RemoveFirst(s: string, c: char): (r: string)
    ensures c !in s ==> r == s
    ensures c in s ==> |r| == |s| - 1 && multiset(r) + multiset{c} == multiset(s)
    ensures c in s ==> exists i :: 0 <= i < |s| && s[i] == c && c !in s[..i] && r == s[..i] + s[i + 1..]
  {
    var i := IndexOf(s, c);
    if i == -1 then s
    else
      assert s == s[..i] + [s[i]] + s[i + 1..];
      s[..i] + s[i + 1..]
  }

  /** The occurrence `RemoveFirst` removes is the first one: whatever comes
      before it is kept, and so is everything after it, in order. */
  lemma RemoveFirstAt(s: string, c: char, i: int)
    requires 0 <= i < |s| && s[i] == c && c !in s[..i]
    ensures RemoveFirst(s, c) == s[..i] + s[i + 1..]
  {
  }

  /** A leading `c` is the one removed. */
  lemma RemoveFirstLeading(c: char, s: string)
    ensures RemoveFirst([c] + s, c) == s
  {
    assert IndexOf([c] + s, c) == 0;
  }

  // ---------------------------------------------------------------------------
  // replace(/\D/g, '')

  /** `s.replace(/\D/g, '')`: the digits of `s`, in order. */
  function Digits(s: string): (r: string)
    ensures |r| <= |s|
    ensures forall k :: 0 <= k < |r| ==> IsDigit(r[k])
  {
    if s == [] then []
    else if IsDigit(s[0]) then [s[0]] + Digits(s[1..])
    else Digits(s[1..])
  }

  /** Keeping the digits distributes over concatenation, so the order of the
      digits is kept. */
  lemma {:induction false} DigitsConcat(a: string, b: string)
    ensures Digits(a + b) == Digits(a) + Digits(b)
  {
    if a != [] {
      assert (a + b)[0] == a[0];
      assert (a + b)[1..] == a[1..] + b;
      DigitsConcat(a[1..], b);
      if IsDigit(a[0]) {
        calc {
          Digits(a + b);
          [a[0]] + Digits(a[1..] + b);
          [a[0]] + (Digits(a[1..]) + Digits(b));
        }
      }
    } else {
      assert a + b == b;
    }
  }

  /** Every digit of `s` is kept as often as it occurs, and nothing else is. */
  lemma {:induction false} DigitsCount(s: string, d: char)
    ensures multiset(Digits(s))[d] == if IsDigit(d) then multiset(s)[d] else 0
  {
    if s != [] {
      DigitsCount(s[1..], d);
      assert s == [s[0]] + s[1..];
    }
  }

  /** A string that holds no digit has no digits to keep. */
  lemma {:induction false} DigitsOfNonDigits(s: string)
    requires forall k :: 0 <= k < |s| ==> !IsDigit(s[k])
    ensures Digits(s) == []
  {
    if s != [] {
      DigitsOfNonDigits(s[1..]);
    }
  }

  /** White space holds no digit. */
  lemma DigitsOfSpaces(s: string)
    requires AllSpace(s)
    ensures Digits(s) == []
  {
    assert forall k :: 0 <= k < |s| ==> IsSpace(s[k]);
    DigitsOfNonDigits(s);
  }

  /** Trimming never removes a digit. */
  lemma DigitsOfTrim(s: string)
    ensures Digits(Trim(s)) == Digits(s)
  {
    var i, j := TrimIsSlice(s);
    SplitAround(s, i, j);
    DigitsOfPadded(s[..i], s[i..j], s[j..]);
  }

  lemma SplitAround(s: string, i: nat, j: nat)
    requires i <= j <= |s|
    ensures s == s[..i] + s[i..j] + s[j..]
  {
  }

  /** White space around a string adds no digit. */
  lemma DigitsOfPadded(front: string, middle: string, back: string)
    requires AllSpace(front) && AllSpace(back)
    ensures Digits(front + middle + back) == Digits(middle)
  {
    DigitsOfSpaces(front);
    DigitsOfSpaces(back);
    DigitsConcat(front + middle, back);
    DigitsConcat(front, middle);
    assert Digits(front + middle + back) == [] + Digits(middle) + [];
  }

  /** Removing the first occurrence of a non-digit never removes a digit. */
  lemma DigitsOfRemoveFirst(s: string, c: char)
    requires !IsDigit(c)
    ensures Digits(RemoveFirst(s, c)) == Digits(s)
  {
    var i := IndexOf(s, c);
    if i != -1 {
      assert s == s[..i] + [c] + s[i + 1..];
      DigitsConcat(s[..i] + [c], s[i + 1..]);
      DigitsConcat(s[..i], [c]);
      DigitsConcat(s[..i], s[i + 1..]);
    }
  }
}
