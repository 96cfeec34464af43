/**
 * Decimal rendering of integers, as Python's f-string `f"{n}"` produces it,
 * and the "id - name" labels the models' `__str__` methods build from it.
 * The parsing functions are not part of the system: they are the inverses
 * that show a rendered label determines the values it was built from.
 */
module Text {
  import opened Wrappers

  predicate IsDigit(c: char)
  {
    '0' <= c <= '9'
  }

  predicate AllDigits(s: string)
  {
    forall i :: 0 <= i < |s| ==> IsDigit(s[i])
  }

  function DigitChar(d: nat): (c: char)
    requires d < 10
    ensures IsDigit(c) && c as int - '0' as int == d
  {
    (d + '0' as int) as char
  }

  function DigitValue(c: char): (d: nat)
    requires IsDigit(c)
    ensures d < 10 && DigitChar(d) == c
  {
    c as int - '0' as int
  }

  /** Decimal digits of `n`, most significant first, without leading zeros. */
  function NatToString(n: nat): (s: string)
    ensures |s| >= 1 && AllDigits(s)
    ensures |s| > 1 ==> s[0] != '0'
    decreases n
  {
    if n < 10 then [DigitChar(n)] else NatToString(n / 10) + [DigitChar(n % 10)]
  }

  /** The value of a string of decimal digits; the empty string reads as 0. */
  function DigitsValue(s: string): nat
    requires AllDigits(s)
    decreases |s|
  {
    if s == [] then 0 else DigitsValue(s[..|s| - 1]) * 10 + DigitValue(s[|s| - 1])
  }

  lemma {:induction false} DigitsValueOfNatToString(n: nat)
    ensures DigitsValue(NatToString(n)) == n
    decreases n
  {
    var s := NatToString(n);
    if n >= 10 {
      DigitsValueOfNatToString(n / 10);
      assert s[..|s| - 1] == NatToString(n / 10);
    }
  }

  /** `f"{n}"`: a minus sign for negative numbers, then the digits of |n|. */
  function IntToString(n: int): (s: string)
    ensures |s| >= 1
    ensures n >= 0 ==> AllDigits(s)
    ensures n < 0 ==> s[0] == '-' && AllDigits(s[1..])
  {
    if n < 0 then "-" + NatToString(-n) else NatToString(n)
  }

  /** Decimal digits as `f"{n}"` writes them: at least one, and no leading zero. */
  predicate CanonicalDigits(s: string)
  {
    |s| >= 1 && AllDigits(s) && (|s| > 1 ==> s[0] != '0')
  }

  /** Reads exactly the strings `IntToString` produces: no leading zeros, no "-0". */
  function ParseInt(s: string): Option<int>
  {
    if CanonicalDigits(s) then Some(DigitsValue(s) as int)
    else if |s| >= 2 && s[0] == '-' && s[1] != '0' && CanonicalDigits(s[1..]) then
      Some(0 - DigitsValue(s[1..]) as int)
    else None
  }

  lemma ParseIntOfIntToString(n: int)
    ensures ParseInt(IntToString(n)) == Some(n)
  {
    if n < 0 {
      var s := IntToString(n);
      var t := NatToString(-n);
      assert s == "-" + t;
      assert s[1..] == t && s[1] == t[0];
      assert t[0] != '0' by {
        if |t| == 1 {
          assert t == [DigitChar(-n)];
        }
      }
      assert !CanonicalDigits(s) by {
        assert !IsDigit(s[0]);
      }
      DigitsValueOfNatToString(-n);
    } else {
      DigitsValueOfNatToString(n);
    }
  }

  /** Digits without a leading zero never read as 0. */
  lemma {:induction false} CanonicalValuePositive(s: string)
    requires |s| >= 1 && AllDigits(s) && s[0] != '0'
    ensures DigitsValue(s) >= 1
    decreases |s|
  {
    if |s| > 1 {
      CanonicalValuePositive(s[..|s| - 1]);
    }
  }

  /** Canonical digits are the rendering of the value they read as. */
  lemma {:induction false} NatToStringOfDigitsValue(s: string)
    requires CanonicalDigits(s)
    ensures NatToString(DigitsValue(s)) == s
    decreases |s|
  {
    if |s| > 1 {
      var p := s[..|s| - 1];
      CanonicalValuePositive(p);
      NatToStringOfDigitsValue(p);
      var n := DigitsValue(s);
      assert n / 10 == DigitsValue(p) && n % 10 == DigitValue(s[|s| - 1]);
      assert s == p + [s[|s| - 1]];
    }
  }

  /** A string that reads as `n` is the rendering of `n`: the rendering is the only one. */
  lemma ParseIntDeterminesIntToString(s: string, n: int)
    requires ParseInt(s) == Some(n)
    ensures s == IntToString(n)
  {
    if CanonicalDigits(s) {
      NatToStringOfDigitsValue(s);
    } else {
      var t := s[1..];
      NatToStringOfDigitsValue(t);
      CanonicalValuePositive(t);
      assert s == "-" + t;
    }
  }

  /** Index of the first space in `s`, or |s| when there is none. */
  function FirstSpace(s: string): (k: nat)
    ensures k <= |s|
    ensures k < |s| ==> s[k] == ' '
    ensures forall i :: 0 <= i < k ==> s[i] != ' '
  {
    if s == [] then 0
    else if s[0] == ' ' then 0
    else 1 + FirstSpace(s[1..])
  }

  /** The `f"{id} - {text}"` form shared by the models' `__str__` methods. */
  function Label(id: int, text: string): string
  {
    IntToString(id) + " - " + text
  }

  /** Splits a label at its first " - ", reading the part before it as an integer. */
  function ParseLabel(s: string): Option<(int, string)>
  {
    var k := FirstSpace(s);
    if k + 3 <= |s| && s[k..k + 3] == " - " then
      match ParseInt(s[..k])
      case Some(id) => Some((id, s[k + 3..]))
      case None => None
    else None
  }

  lemma ParseLabelOfLabel(id: int, text: string)
    ensures ParseLabel(Label(id, text)) == Some((id, text))
  {
    var d := IntToString(id);
    var s := Label(id, text);
    assert forall i :: 0 <= i < |d| ==> s[i] == d[i] && d[i] != ' ';
    assert s[|d|] == ' ';
    assert FirstSpace(s) == |d| by {
      FirstSpaceAt(s, |d|);
    }
    assert s[..|d|] == d;
    assert s[|d|..|d| + 3] == " - ";
    assert s[|d| + 3..] == text;
    ParseIntOfIntToString(id);
  }

  lemma {:induction false} FirstSpaceAt(s: string, k: nat)
    requires k < |s| && s[k] == ' '
    requires forall i :: 0 <= i < k ==> s[i] != ' '
    ensures FirstSpace(s) == k
    decreases k
  {
    if k > 0 {
      FirstSpaceAt(s[1..], k - 1);
    }
  }

  /** A string that reads as a label is that label: the "id - name" form is the only one. */
  lemma ParseLabelDeterminesLabel(s: string, id: int, text: string)
    requires ParseLabel(s) == Some((id, text))
    ensures s == Label(id, text)
  {
    var k := FirstSpace(s);
    ParseIntDeterminesIntToString(s[..k], id);
    assert s == s[..k] + s[k..k + 3] + s[k + 3..];
  }
}
