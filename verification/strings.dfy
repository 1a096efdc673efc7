/** Text helpers shared by every participant: the optional-value wrapper, Python's
    substring test (`needle in hay`), ASCII case folding, `str()` / `int()` on
    integers, and `"sep".join(...)`. */
module Strings {

  /** A value that may be absent (Python's `None`). */
  datatype Option<+T> = None | Some(value: T)

  /** `needle` occurs in `hay` starting at index `i`. */
  ghost predicate OccursAt(needle: string, hay: string, i: int)
  {
    0 <= i && i + |needle| <= |hay| && hay[i..i + |needle|] == needle
  }

  /** Python's `needle in hay` on strings; the empty needle occurs everywhere. */
  predicate Contains(needle: string, hay: string)
    decreases |hay|
  {
    |needle| <= |hay| && (hay[..|needle|] == needle || (|hay| > 0 && Contains(needle, hay[1..])))
  }

  /** The scanning definition agrees with the positional one. */
  lemma {:induction false} ContainsIffOccurs(needle: string, hay: string)
    ensures Contains(needle, hay) <==> exists i :: OccursAt(needle, hay, i)
    decreases |hay|
  {
    if |needle| > |hay| {
      assert forall i :: !OccursAt(needle, hay, i);
    } else if hay[..|needle|] == needle {
      assert OccursAt(needle, hay, 0);
    } else {
      var tail := hay[1..];
      ContainsIffOccurs(needle, tail);
      if Contains(needle, tail) {
        var j :| OccursAt(needle, tail, j);
        assert hay[j + 1..j + 1 + |needle|] == tail[j..j + |needle|];
        assert OccursAt(needle, hay, j + 1);
      }
      if i :| OccursAt(needle, hay, i) {
        assert i != 0;
        assert tail[i - 1..i - 1 + |needle|] == hay[i..i + |needle|];
        assert OccursAt(needle, tail, i - 1);
      }
    }
  }

  /** Whatever is placed between `before` and `after` is found in the result. */
  lemma ContainsInfix(before: string, needle: string, after: string)
    ensures Contains(needle, before + needle + after)
  {
    var hay := before + needle + after;
    assert hay[|before|..|before| + |needle|] == needle;
    assert OccursAt(needle, hay, |before|);
    ContainsIffOccurs(needle, hay);
  }

  /** A string that contains the needle still does once text is put around it. */
  lemma ContainsWidened(needle: string, before: string, hay: string, after: string)
    requires Contains(needle, hay)
    ensures Contains(needle, before + hay + after)
  {
    ContainsIffOccurs(needle, hay);
    var i :| OccursAt(needle, hay, i);
    var wide := before + hay + after;
    assert wide[|before| + i..|before| + i + |needle|] == hay[i..i + |needle|];
    assert OccursAt(needle, wide, |before| + i);
    ContainsIffOccurs(needle, wide);
  }

  /** A string that contains the needle still does once text is appended. */
  lemma ContainsExtended(needle: string, hay: string, after: string)
    requires Contains(needle, hay)
    ensures Contains(needle, hay + after)
  {
    ContainsIffOccurs(needle, hay);
    var i :| OccursAt(needle, hay, i);
    var wide := hay + after;
    assert wide[i..i + |needle|] == hay[i..i + |needle|];
    assert OccursAt(needle, wide, i);
    ContainsIffOccurs(needle, wide);
  }

  /** A string that contains `pre + needle + post` contains `needle`. */
  lemma ContainsPart(pre: string, needle: string, post: string, hay: string)
    requires Contains(pre + needle + post, hay)
    ensures Contains(needle, hay)
  {
    var whole := pre + needle + post;
    ContainsIffOccurs(whole, hay);
    var i :| OccursAt(whole, hay, i);
    assert hay[i..i + |whole|] == whole;
    forall k | 0 <= k < |needle|
      ensures hay[i + |pre|..i + |pre| + |needle|][k] == needle[k]
    {
      assert hay[i + |pre| + k] == hay[i..i + |whole|][|pre| + k] == whole[|pre| + k];
    }
    assert OccursAt(needle, hay, i + |pre|);
    ContainsIffOccurs(needle, hay);
  }

  /** A needle whose first character is absent from the text is not found. */
  lemma MissingFirstChar(needle: string, hay: string)
    requires |needle| > 0 && needle[0] !in hay
    ensures !Contains(needle, hay)
  {
    ContainsIffOccurs(needle, hay);
    forall i | 0 <= i && i + |needle| <= |hay|
      ensures !OccursAt(needle, hay, i)
    {
      assert hay[i..i + |needle|][0] == hay[i];
    }
  }

  /** `str.lower()` restricted to ASCII letters. */
  function LowerChar(c: char): char
  {
    if 'A' <= c <= 'Z' then (c as int + 32) as char else c
  }

  function Lower(s: string): (r: string)
    ensures |r| == |s|
    ensures forall i :: 0 <= i < |s| ==> r[i] == LowerChar(s[i])
  {
    seq(|s|, i requires 0 <= i < |s| => LowerChar(s[i]))
  }

  /** `needle` occurs in `hay` at `i` when letter case is ignored. */
  ghost predicate OccursAtIgnoringCase(needle: string, hay: string, i: int)
  {
    0 <= i && i + |needle| <= |hay| && Lower(hay[i..i + |needle|]) == Lower(needle)
  }

  lemma LowerSlice(s: string, i: int, j: int)
    requires 0 <= i <= j <= |s|
    ensures Lower(s)[i..j] == Lower(s[i..j])
  {
  }

  /** Testing a lower-case needle against `hay.lower()` finds the needle in any
      mixture of upper and lower case. */
  lemma LowerFindsAnyCase(needle: string, hay: string)
    requires Lower(needle) == needle
    ensures Contains(needle, Lower(hay)) <==> exists i :: OccursAtIgnoringCase(needle, hay, i)
  {
    var low := Lower(hay);
    ContainsIffOccurs(needle, low);
    if Contains(needle, low) {
      var i :| OccursAt(needle, low, i);
      LowerSlice(hay, i, i + |needle|);
      assert OccursAtIgnoringCase(needle, hay, i);
    }
    if i :| OccursAtIgnoringCase(needle, hay, i) {
      LowerSlice(hay, i, i + |needle|);
      assert OccursAt(needle, low, i);
    }
  }

  /** `s.endswith(suffix)`. */
  predicate EndsWith(s: string, suffix: string)
  {
    |suffix| <= |s| && s[|s| - |suffix|..] == suffix
  }

  predicate IsDigit(c: char)
  {
    '0' <= c <= '9'
  }

  predicate AllDigits(s: string)
  {
    forall i :: 0 <= i < |s| ==> IsDigit(s[i])
  }

  function DigitChar(d: nat): (c: char)
    requires d < 10
    ensures IsDigit(c) && c as int - '0' as int == d
  {
    (d + '0' as int) as char
  }

  /** Decimal digits of a natural number, most significant first. */
  function NatToString(n: nat): string
    decreases n
  {
    if n < 10 then [DigitChar(n)] else NatToString(n / 10) + [DigitChar(n % 10)]
  }

  /** Python's `str(n)` for an integer. */
  function IntToString(n: int): string
  {
    if n < 0 then "-" + NatToString(-n) else NatToString(n)
  }

  /** The value of a string of decimal digits. */
  function DigitsValue(s: string): nat
    requires AllDigits(s)
  {
    if |s| == 0 then 0 else DigitsValue(s[..|s| - 1]) * 10 + (s[|s| - 1] as int - '0' as int)
  }

  /** Python's `int(s)` on an optional sign followed by decimal digits; anything
      else raises `ValueError`, which is `None` here. */
  function ParseInt(s: string): Option<int>
  {
    if |s| > 0 && (s[0] == '-' || s[0] == '+') then
      var digits := s[1..];
      if |digits| > 0 && AllDigits(digits) then
        Some(if s[0] == '-' then -(DigitsValue(digits) as int) else DigitsValue(digits))
      else None
    else if |s| > 0 && AllDigits(s) then Some(DigitsValue(s))
    else None
  }

  lemma {:induction false} NatToStringDigits(n: nat)
    ensures |NatToString(n)| > 0
    ensures AllDigits(NatToString(n))
    ensures DigitsValue(NatToString(n)) == n
    decreases n
  {
    if n >= 10 {
      NatToStringDigits(n / 10);
      var s := NatToString(n);
      assert s[..|s| - 1] == NatToString(n / 10);
    }
  }

  /** `int(str(n)) == n`. */
  lemma ParseIntRoundTrip(n: int)
    ensures ParseInt(IntToString(n)) == Some(n)
  {
    if n < 0 {
      NatToStringDigits(-n);
      assert IntToString(n)[1..] == NatToString(-n);
    } else {
      NatToStringDigits(n);
    }
  }

  /** `sep.join(parts)`. */
  function Join(parts: seq<string>, sep: string): string
  {
    if |parts| == 0 then ""
    else if |parts| == 1 then parts[0]
    else parts[0] + sep + Join(parts[1..], sep)
  }

  /** Two appends in a row are one append of the concatenation. */
  lemma AppendChain<T>(a: seq<T>, b: seq<T>, c: seq<T>, x: seq<T>, y: seq<T>)
    requires b == a + x && c == b + y
    ensures c == a + (x + y)
  {
  }

  /** The position of the first `c` in `s`. */
  function IndexOf(s: string, c: char): (i: nat)
    requires c in s
    ensures i < |s| && s[i] == c && c !in s[..i]
  {
    if s[0] == c then 0
    else
      var j := IndexOf(s[1..], c);
      assert s[1..][..j] == s[1..j + 1];
      j + 1
  }

  /** `s.split(sep)` for a one-character separator. */
  function Split(s: string, sep: char): (r: seq<string>)
    ensures |r| > 0
    decreases |s|
  {
    if sep !in s then [s]
    else
      var i := IndexOf(s, sep);
      [s[..i]] + Split(s[i + 1..], sep)
  }

  /** Splitting a join at its separator gives the parts back, when no part
      holds the separator. */
  lemma {:induction false} SplitJoin(parts: seq<string>, sep: char)
    requires |parts| > 0
    requires forall k :: 0 <= k < |parts| ==> sep !in parts[k]
    ensures Split(Join(parts, [sep]), sep) == parts
    decreases |parts|
  {
    if |parts| > 1 {
      var rest := Join(parts[1..], [sep]);
      var s := Join(parts, [sep]);
      assert s == parts[0] + [sep] + rest;
      assert s[|parts[0]|] == sep;
      assert s[..|parts[0]|] == parts[0];
      assert IndexOf(s, sep) == |parts[0]|;
      assert s[|parts[0]| + 1..] == rest;
      SplitJoin(parts[1..], sep);
    }
  }
}
