/** Integer numerals as text, as ECMAScript produces them:
    `Number.prototype.toString(radix)` for a non-negative integer (ECMA-262, section 21.1.3.6,
    with the digit alphabet 0-9 then a-z), `String.prototype.toUpperCase` on the ASCII letters
    such a numeral can contain, and the reverse reading (the `parseInt` digit rule, either case). */
module NumberText {
  import opened Common

  predicate ValidRadix(radix: nat) { 2 <= radix <= 36 }

  /** The value of one digit character, in either case; `None` for anything else. */
  function DigitValue(c: char): (r: Option<nat>)
    ensures r.Some? ==> r.value < 36
    ensures r.Some? <==> ('0' <= c <= '9' || 'a' <= c <= 'z' || 'A' <= c <= 'Z')
  {
    if '0' <= c <= '9' then Some(c as int - '0' as int)
    else if 'a' <= c <= 'z' then Some(c as int - 'a' as int + 10)
    else if 'A' <= c <= 'Z' then Some(c as int - 'A' as int + 10)
    else None
  }

  /** The lower-case digit character of a digit value. */
  function DigitChar(d: nat): (c: char)
    requires d < 36
    ensures DigitValue(c) == Some(d)
    ensures '0' <= c <= '9' || 'a' <= c <= 'z'
  {
    if d < 10 then ('0' as int + d) as char else ('a' as int + d - 10) as char
  }

  /** `n.toString(radix)` for a non-negative integer: most significant digit first, no leading zero. */
  function ToRadix(n: nat, radix: nat): (s: string)
    requires ValidRadix(radix)
    ensures |s| >= 1
    ensures forall i :: 0 <= i < |s| ==> '0' <= s[i] <= '9' || 'a' <= s[i] <= 'z'
    ensures AllDigits(s, radix)
    decreases n
  {
    if n < radix then [DigitChar(n)]
    else
      DivModFacts(n, radix);
      var s := ToRadix(n / radix, radix);
      var c := DigitChar(n % radix);
      SnocDigit(s, c, radix);
      s + [c]
  }

  /** Appending one lower-case digit below the radix to such a numeral gives another. */
  lemma SnocDigit(s: string, c: char, radix: nat)
    requires forall i :: 0 <= i < |s| ==> '0' <= s[i] <= '9' || 'a' <= s[i] <= 'z'
    requires AllDigits(s, radix)
    requires ('0' <= c <= '9' || 'a' <= c <= 'z') && DigitBelow(c, radix)
    ensures forall i :: 0 <= i < |s + [c]| ==> '0' <= (s + [c])[i] <= '9' || 'a' <= (s + [c])[i] <= 'z'
    ensures AllDigits(s + [c], radix)
  {
    forall i | 0 <= i < |s + [c]|
      ensures ('0' <= (s + [c])[i] <= '9' || 'a' <= (s + [c])[i] <= 'z') && DigitBelow((s + [c])[i], radix)
    {
      if i < |s| {
        assert (s + [c])[i] == s[i];
      } else {
        assert (s + [c])[i] == c;
      }
    }
  }

  /** Upper-case of one character, restricted to the ASCII letters a-z. */
  function UpperAscii(c: char): (u: char)
    ensures 'a' <= c <= 'z' ==> 'A' <= u <= 'Z' && u as int == c as int - 32
    ensures !('a' <= c <= 'z') ==> u == c
  {
    if 'a' <= c <= 'z' then (c as int - 32) as char else c
  }

  /** `toUpperCase` on a string whose letters are ASCII. */
  function ToUpper(s: string): (u: string)
    ensures |u| == |s|
    ensures forall i :: 0 <= i < |s| ==> u[i] == UpperAscii(s[i])
  {
    if s == [] then [] else ToUpper(s[..|s| - 1]) + [UpperAscii(s[|s| - 1])]
  }

  /** `n.toString(36).toUpperCase()`. */
  function Base36Upper(n: nat): (s: string)
  {
    ToUpper(ToRadix(n, 36))
  }

  predicate IsUpperBase36Char(c: char) { '0' <= c <= '9' || 'A' <= c <= 'Z' }

  predicate DigitBelow(c: char, radix: nat)
  {
    DigitValue(c).Some? && DigitValue(c).value < radix
  }

  predicate AllDigits(s: string, radix: nat)
  {
    forall i :: 0 <= i < |s| ==> DigitBelow(s[i], radix)
  }

  /** The value of a string of digits, most significant first. */
  function ValueOf(s: string, radix: nat): (v: nat)
    requires AllDigits(s, radix)
  {
    if s == [] then 0
    else ValueOf(s[..|s| - 1], radix) * radix + DigitValue(s[|s| - 1]).value
  }

  /** Reads a numeral back: `None` for the empty string or one holding a character that is
      not a digit below the radix, otherwise the value of its digits. */
  function ParseRadix(s: string, radix: nat): (r: Option<nat>)
    requires ValidRadix(radix)
  {
    if s != [] && AllDigits(s, radix) then Some(ValueOf(s, radix)) else None
  }

  lemma DivModFacts(n: nat, b: nat)
    requires 2 <= b <= n
    ensures n / b < n && n == (n / b) * b + n % b && 0 <= n % b < b
  {
  }

  lemma ValueOfSnoc(s: string, c: char, radix: nat)
    requires AllDigits(s, radix) && DigitBelow(c, radix)
    ensures AllDigits(s + [c], radix)
    ensures ValueOf(s + [c], radix) == ValueOf(s, radix) * radix + DigitValue(c).value
  {
    assert (s + [c])[..|s|] == s;
  }

  /** Round trip: reading back `n.toString(radix)` gives `n`. */
  lemma {:induction false} ParseToRadix(n: nat, radix: nat)
    requires ValidRadix(radix)
    ensures ParseRadix(ToRadix(n, radix), radix) == Some(n)
    decreases n
  {
    if n >= radix {
      DivModFacts(n, radix);
      var q, d := n / radix, n % radix;
      var front, c := ToRadix(q, radix), DigitChar(d);
      assert ToRadix(n, radix) == front + [c];
      ParseToRadix(q, radix);
      assert ValueOf(front, radix) == q;
      ValueOfSnoc(front, c, radix);
      assert ValueOf(front + [c], radix) == n;
    } else {
      OneDigitValue(DigitChar(n), radix);
    }
  }

  lemma OneDigitValue(c: char, radix: nat)
    requires DigitBelow(c, radix)
    ensures AllDigits([c], radix) && ValueOf([c], radix) == DigitValue(c).value
  {
    assert [c][..0] == [];
  }


  /** The numeral has no leading zero, except the numeral of 0 itself. */
  lemma {:induction false} ToRadixNoLeadingZero(n: nat, radix: nat)
    requires ValidRadix(radix)
    ensures (ToRadix(n, radix)[0] == '0') <==> n == 0
    decreases n
  {
    if n >= radix {
      DivModFacts(n, radix);
      var s := ToRadix(n / radix, radix);
      assert ToRadix(n, radix) == s + [DigitChar(n % radix)];
      assert ToRadix(n, radix)[0] == s[0];
      ToRadixNoLeadingZero(n / radix, radix);
    }
  }

  /** Upper-casing a digit does not change the digit value it stands for. */
  lemma UpperKeepsDigitValue(c: char)
    ensures DigitValue(UpperAscii(c)) == DigitValue(c)
  {
  }

  lemma {:induction false} ValueOfIgnoresCase(s: string, radix: nat)
    requires AllDigits(s, radix)
    ensures AllDigits(ToUpper(s), radix)
    ensures ValueOf(ToUpper(s), radix) == ValueOf(s, radix)
    decreases |s|
  {
    forall i | 0 <= i < |s| ensures DigitBelow(ToUpper(s)[i], radix) {
      UpperKeepsDigitValue(s[i]);
    }
    if s != [] {
      var u := ToUpper(s);
      var init := s[..|s| - 1];
      assert AllDigits(init, radix) by {
        forall i | 0 <= i < |init| ensures DigitBelow(init[i], radix) {
          assert init[i] == s[i];
        }
      }
      assert u[..|u| - 1] == ToUpper(init);
      ValueOfIgnoresCase(init, radix);
      UpperKeepsDigitValue(s[|s| - 1]);
    }
  }

  /** Parsing is blind to letter case, so a numeral and its upper-case form have the same value. */
  lemma ParseIgnoresCase(s: string, radix: nat)
    requires ValidRadix(radix)
    ensures ParseRadix(ToUpper(s), radix) == ParseRadix(s, radix)
  {
    if AllDigits(s, radix) {
      ValueOfIgnoresCase(s, radix);
    } else {
      var i :| 0 <= i < |s| && !DigitBelow(s[i], radix);
      UpperKeepsDigitValue(s[i]);
      assert !DigitBelow(ToUpper(s)[i], radix);
    }
  }

  /** The upper-case base-36 token: non-empty, only 0-9A-Z, and it decodes back to the timestamp. */
  lemma Base36UpperRoundTrip(n: nat)
    ensures |Base36Upper(n)| >= 1
    ensures forall i :: 0 <= i < |Base36Upper(n)| ==> IsUpperBase36Char(Base36Upper(n)[i])
    ensures ParseRadix(Base36Upper(n), 36) == Some(n)
  {
    ParseToRadix(n, 36);
    ParseIgnoresCase(ToRadix(n, 36), 36);
  }

  /** Two different timestamps never give the same token. */
  lemma Base36UpperInjective(m: nat, n: nat)
    requires Base36Upper(m) == Base36Upper(n)
    ensures m == n
  {
    Base36UpperRoundTrip(m);
    Base36UpperRoundTrip(n);
  }
}
