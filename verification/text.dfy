/** The text operations chat_bienestar.py borrows from Python's `str` and `re`:
    `strip()`, `lower()`, the substring test `t in s`, and the digit filter
    `re.sub(r'[^\d]', '', s)` behind phone-number validation. */
module Text {
  import opened Wrappers

  /** Python's `str.isspace`: exactly the characters `str.strip()` removes. */
  predicate IsSpace(ch: char) {
    var c := ch as int;
    || 0x09 <= c <= 0x0D
    || 0x1C <= c <= 0x20
    || c == 0x85 || c == 0xA0 || c == 0x1680
    || 0x2000 <= c <= 0x200A
    || c == 0x2028 || c == 0x2029 || c == 0x202F || c == 0x205F || c == 0x3000
  }

  predicate AllSpace(s: string) {
    forall i :: 0 <= i < |s| ==> IsSpace(s[i])
  }

  // ---------------------------------------------------------------- strip

  /** Length of the whitespace run that opens `s`. */
  function LeadingSpaces(s: string): (n: nat)
    ensures n <= |s|
    ensures forall i :: 0 <= i < n ==> IsSpace(s[i])
    ensures n < |s| ==> !IsSpace(s[n])
  {
    if |s| > 0 && IsSpace(s[0]) then 1 + LeadingSpaces(s[1..]) else 0
  }

  /** Length of the whitespace run that closes `s`. */
  function TrailingSpaces(s: string): (n: nat)
    ensures n <= |s|
    ensures forall i :: |s| - n <= i < |s| ==> IsSpace(s[i])
    ensures n < |s| ==> !IsSpace(s[|s| - n - 1])
  {
    if |s| > 0 && IsSpace(s[|s| - 1]) then 1 + TrailingSpaces(s[..|s| - 1]) else 0
  }

  /** Python's `s.strip()`. */
  function Strip(s: string): (r: string)
    ensures |r| <= |s|
    ensures r == [] || (!IsSpace(r[0]) && !IsSpace(r[|r| - 1]))
  {
    var lo := LeadingSpaces(s);
    s[lo..][..|s| - lo - TrailingSpaces(s[lo..])]
  }

  /** What `Strip` removes: a whitespace prefix and a whitespace suffix. */
  lemma StripSlice(s: string) returns (lo: nat, hi: nat)
    ensures lo <= hi <= |s|
    ensures Strip(s) == s[lo..hi]
    ensures AllSpace(s[..lo]) && AllSpace(s[hi..])
    ensures forall i :: 0 <= i < lo ==> IsSpace(s[i])
    ensures forall i :: hi <= i < |s| ==> IsSpace(s[i])
  {
    lo := LeadingSpaces(s);
    var t := s[lo..];
    hi := |s| - TrailingSpaces(t);
    assert Strip(s) == t[..hi - lo] == s[lo..hi];
    assert AllSpace(s[hi..]) by {
      forall i | 0 <= i < |s| - hi ensures IsSpace(s[hi..][i]) {
        assert s[hi..][i] == t[hi - lo + i];
      }
    }
  }

  /** Stripping removes nothing from a text that neither starts nor ends with
      whitespace; in particular `Strip` is idempotent. */
  lemma StripNoOp(s: string)
    requires s == [] || (!IsSpace(s[0]) && !IsSpace(s[|s| - 1]))
    ensures Strip(s) == s
  {
    assert LeadingSpaces(s) == 0;
    if |s| > 0 {
      assert s[0..] == s;
      assert TrailingSpaces(s) == 0;
    }
  }

  lemma StripIdempotent(s: string)
    ensures Strip(Strip(s)) == Strip(s)
  {
    StripNoOp(Strip(s));
  }

  /** The stripped text is empty exactly when the text is all whitespace. */
  lemma StripEmptyIff(s: string)
    ensures Strip(s) == [] <==> AllSpace(s)
  {
    var r := Strip(s);
    var lo, hi := StripSlice(s);
    if r == [] {
      forall i | 0 <= i < |s| ensures IsSpace(s[i]) {
        if i < lo {
          assert s[..lo][i] == s[i];
        } else {
          assert s[hi..][i - hi] == s[i];
        }
      }
    } else {
      assert s[lo] == r[0];
    }
  }

  // ---------------------------------------------------------------- lower

  predicate IsUpper(ch: char) {
    'A' <= ch <= 'Z'
  }

  function LowerChar(ch: char): char {
    if IsUpper(ch) then (ch as int - 'A' as int + 'a' as int) as char else ch
  }

  /** Python's `s.lower()`, restricted to the ASCII letters. */
  function Lower(s: string): (r: string)
    ensures |r| == |s|
    ensures forall i :: 0 <= i < |s| ==> r[i] == LowerChar(s[i])
  {
    seq(|s|, i requires 0 <= i < |s| => LowerChar(s[i]))
  }

  /** Lower-casing never turns whitespace into text or text into whitespace,
      so stripping and lower-casing commute. */
  lemma LowerStripCommute(s: string)
    ensures Lower(Strip(s)) == Strip(Lower(s))
  {
    var l := Lower(s);
    var lo := LeadingSpaces(s);
    LeadingSpacesLower(s);
    var t := s[lo..];
    LowerSlice(s, lo, |s|);
    assert s[lo..|s|] == t && l[lo..|s|] == l[lo..];
    TrailingSpacesLower(t);
    var n := |t| - TrailingSpaces(t);
    assert Strip(s) == t[..n];
    assert Strip(l) == Lower(t)[..n];
    LowerSlice(t, 0, n);
    assert t[0..n] == t[..n] && Lower(t)[0..n] == Lower(t)[..n];
  }

  lemma LowerSlice(s: string, i: nat, j: nat)
    requires i <= j <= |s|
    ensures Lower(s)[i..j] == Lower(s[i..j])
  {
    var a, b := Lower(s)[i..j], Lower(s[i..j]);
    assert |a| == |b|;
    forall k | 0 <= k < |a| ensures a[k] == b[k] {
      assert a[k] == Lower(s)[i + k];
      assert s[i..j][k] == s[i + k];
    }
  }

  lemma {:induction false} LeadingSpacesLower(s: string)
    ensures LeadingSpaces(Lower(s)) == LeadingSpaces(s)
  {
    if |s| > 0 {
      LowerSlice(s, 1, |s|);
      LeadingSpacesLower(s[1..]);
    }
  }

  lemma {:induction false} TrailingSpacesLower(s: string)
    ensures TrailingSpaces(Lower(s)) == TrailingSpaces(s)
  {
    if |s| > 0 {
      LowerSlice(s, 0, |s| - 1);
      assert s[0..|s| - 1] == s[..|s| - 1];
      TrailingSpacesLower(s[..|s| - 1]);
    }
  }

  /** Lower-casing leaves no ASCII capital behind, moves each capital to its
      small letter, and touches nothing else; doing it twice changes nothing
      more. */
  lemma LowerEffect(s: string)
    ensures forall i :: 0 <= i < |s| ==> !IsUpper(Lower(s)[i])
    ensures forall i :: 0 <= i < |s| && !IsUpper(s[i]) ==> Lower(s)[i] == s[i]
    ensures forall i :: 0 <= i < |s| && IsUpper(s[i]) ==> Lower(s)[i] as int == s[i] as int + 32
    ensures Lower(Lower(s)) == Lower(s)
  {
  }

  /** The engine's input normalisation: `mensaje.strip().lower()`. */
  function Normalize(s: string): (r: string)
    ensures |r| <= |s|
    ensures forall i :: 0 <= i < |r| ==> !IsUpper(r[i])
  {
    Lower(Strip(s))
  }

  /** A normalised message has nothing left to strip, and it is empty exactly
      when the raw message was all whitespace. */
  lemma NormalizeStripped(s: string)
    ensures Strip(Normalize(s)) == Normalize(s)
    ensures Normalize(s) == [] <==> AllSpace(s)
  {
    LowerStripCommute(s);
    StripIdempotent(Lower(s));
    StripEmptyIff(s);
  }

  // ---------------------------------------------------------------- substring

  /** Python's `t in s` on strings, as a left-to-right scan. */
  predicate Contains(s: string, t: string)
    ensures Contains(s, t) ==> |t| <= |s|
    ensures |t| <= |s| && s[..|t|] == t ==> Contains(s, t)
    decreases |s|
  {
    |t| <= |s| && (s[..|t|] == t || (|s| > 0 && Contains(s[1..], t)))
  }

  ghost predicate OccursAt(s: string, t: string, i: int) {
    0 <= i && i + |t| <= |s| && s[i..i + |t|] == t
  }

  /** The scan finds `t` exactly when `t` occurs at some position of `s`. */
  lemma {:induction false} ContainsIff(s: string, t: string)
    ensures Contains(s, t) <==> exists i :: OccursAt(s, t, i)
    decreases |s|
  {
    if |t| <= |s| && s[..|t|] != t && |s| > 0 {
      ContainsIff(s[1..], t);
      if j :| OccursAt(s, t, j) {
        assert j != 0;
        assert OccursAt(s[1..], t, j - 1) by {
          assert s[1..][j - 1..j - 1 + |t|] == s[j..j + |t|];
        }
      }
      if j :| OccursAt(s[1..], t, j) {
        assert OccursAt(s, t, j + 1) by {
          assert s[1..][j..j + |t|] == s[j + 1..j + 1 + |t|];
        }
      }
    } else if |t| <= |s| && s[..|t|] == t {
      assert OccursAt(s, t, 0);
    }
  }

  /** Searching for a text that has no whitespace gives the same answer
      before and after stripping. */
  lemma ContainsStrip(s: string, t: string)
    requires |t| > 0 && forall k :: 0 <= k < |t| ==> !IsSpace(t[k])
    ensures Contains(Strip(s), t) <==> Contains(s, t)
  {
    var lo, hi := StripSlice(s);
    ContainsIff(Strip(s), t);
    ContainsIff(s, t);
    if j :| OccursAt(Strip(s), t, j) {
      OccursWiden(s, lo, hi, t, j);
    }
    if j :| OccursAt(s, t, j) {
      OccursNarrow(s, lo, hi, t, j);
    }
  }

  lemma OccursWiden(s: string, lo: nat, hi: nat, t: string, j: int)
    requires lo <= hi <= |s| && OccursAt(s[lo..hi], t, j)
    ensures OccursAt(s, t, lo + j)
  {
    var a, b := s[lo + j..lo + j + |t|], s[lo..hi][j..j + |t|];
    forall k | 0 <= k < |t| ensures a[k] == b[k] {
      assert a[k] == s[lo + j + k];
    }
  }

  lemma OccursNarrow(s: string, lo: nat, hi: nat, t: string, j: int)
    requires lo <= hi <= |s|
    requires forall i :: 0 <= i < lo ==> IsSpace(s[i])
    requires forall i :: hi <= i < |s| ==> IsSpace(s[i])
    requires |t| > 0 && forall k :: 0 <= k < |t| ==> !IsSpace(t[k])
    requires OccursAt(s, t, j)
    ensures OccursAt(s[lo..hi], t, j - lo)
  {
    var last := j + |t| - 1;
    assert s[j] == s[j..j + |t|][0] == t[0];
    assert s[last] == s[j..j + |t|][|t| - 1] == t[|t| - 1];
    var a, b := s[lo..hi][j - lo..j - lo + |t|], s[j..j + |t|];
    forall k | 0 <= k < |t| ensures a[k] == b[k] {
      assert a[k] == s[j + k];
    }
  }

  // ---------------------------------------------------------------- digits

  predicate IsDigit(ch: char) {
    '0' <= ch <= '9'
  }

  predicate AllDigits(s: string) {
    forall i :: 0 <= i < |s| ==> IsDigit(s[i])
  }

  /** `re.sub(r'[^\d]', '', s)`: the digits of `s`, in order. */
  function Digits(s: string): (r: string)
    ensures |r| <= |s|
    ensures AllDigits(r)
  {
    if |s| == 0 then [] else (if IsDigit(s[0]) then [s[0]] else []) + Digits(s[1..])
  }

  /** The filter keeps every occurrence of every digit and nothing else. */
  lemma {:induction false} DigitsCounts(s: string)
    ensures forall ch {:trigger multiset(Digits(s))[ch]} ::
              multiset(Digits(s))[ch] == if IsDigit(ch) then multiset(s)[ch] else 0
  {
    if |s| > 0 {
      DigitsCounts(s[1..]);
      assert s == [s[0]] + s[1..];
    }
  }

  /** The digit filter distributes over concatenation, so it keeps the order
      of the digits and drops each separator independently. */
  lemma {:induction false} DigitsConcat(a: string, b: string)
    ensures Digits(a + b) == Digits(a) + Digits(b)
  {
    if |a| > 0 {
      assert (a + b)[1..] == a[1..] + b;
      DigitsConcat(a[1..], b);
    } else {
      assert a + b == b;
    }
  }

  /** A text that is all digits passes through the filter unchanged. */
  lemma {:induction false} DigitsOfDigits(s: string)
    requires AllDigits(s)
    ensures Digits(s) == s
  {
    if |s| > 0 {
      DigitsOfDigits(s[1..]);
    }
  }

  /** A text without digits filters to nothing. */
  lemma {:induction false} DigitsOfNonDigits(s: string)
    requires forall i :: 0 <= i < |s| ==> !IsDigit(s[i])
    ensures Digits(s) == []
  {
    if |s| > 0 {
      DigitsOfNonDigits(s[1..]);
    }
  }

  /** Lower-casing keeps every digit and every non-digit in place. */
  lemma {:induction false} DigitsLower(s: string)
    ensures Digits(Lower(s)) == Digits(s)
  {
    if |s| > 0 {
      LowerSlice(s, 1, |s|);
      DigitsLower(s[1..]);
      assert Lower(s)[0] == LowerChar(s[0]);
      assert IsDigit(s[0]) ==> LowerChar(s[0]) == s[0];
      assert !IsDigit(s[0]) ==> !IsDigit(LowerChar(s[0]));
      var l := Lower(s);
      assert s[1..|s|] == s[1..] && l[1..|s|] == l[1..];
      assert Digits(l) == (if IsDigit(l[0]) then [l[0]] else []) + Digits(l[1..]);
    }
  }

  /** Normalising a message never changes which digits it holds. */
  lemma DigitsNormalize(s: string)
    ensures Digits(Normalize(s)) == Digits(s)
  {
    var r := Strip(s);
    var lo, hi := StripSlice(s);
    assert s == s[..lo] + r + s[hi..];
    DigitsConcat(s[..lo] + r, s[hi..]);
    DigitsConcat(s[..lo], r);
    DigitsOfNonDigits(s[..lo]);
    DigitsOfNonDigits(s[hi..]);
    DigitsLower(r);
  }

  // ---------------------------------------------------------------- phone numbers

  const PhoneLength := 10

  /** A cleaned phone number: exactly ten digits. */
  predicate IsPhone(s: string) {
    |s| == PhoneLength && AllDigits(s)
  }

  /** The `(es_valido, numero_limpio)` pair `validar_numero_telefonico` returns. */
  datatype PhoneCheck = PhoneCheck(valid: bool, number: Option<string>)

  /** `validar_numero_telefonico`: keep the digits, accept exactly ten. */
  function ValidarNumeroTelefonico(numero: string): (r: PhoneCheck)
    ensures r.valid <==> |Digits(numero)| == PhoneLength
    ensures r.valid ==> r.number == Some(Digits(numero)) && IsPhone(r.number.value)
    ensures !r.valid ==> r.number == None
  {
    var limpio := Digits(numero);
    if |limpio| == PhoneLength && AllDigits(limpio) then PhoneCheck(true, Some(limpio))
    else PhoneCheck(false, None)
  }

  /** A cleaned number validates to itself. */
  lemma PhoneRoundTrip(numero: string)
    requires ValidarNumeroTelefonico(numero).valid
    ensures ValidarNumeroTelefonico(ValidarNumeroTelefonico(numero).number.value) == ValidarNumeroTelefonico(numero)
  {
    DigitsOfDigits(Digits(numero));
  }

  /** Inserting text without digits anywhere never changes the verdict. */
  lemma PhoneIgnoresSeparators(a: string, sep: string, b: string)
    requires forall i :: 0 <= i < |sep| ==> !IsDigit(sep[i])
    ensures ValidarNumeroTelefonico(a + sep + b) == ValidarNumeroTelefonico(a + b)
  {
    DigitsConcat(a + sep, b);
    DigitsConcat(a, sep);
    DigitsConcat(a, b);
    DigitsOfNonDigits(sep);
    assert Digits(a + sep) == Digits(a) + [] == Digits(a);
    assert Digits(a + sep + b) == Digits(a + b);
  }

  /** The formats a caller is expected to type (bare, dashed, with
      parentheses and spaces) all clean to the same ten digits. */
  lemma PhoneExampleBare()
    ensures ValidarNumeroTelefonico("5551234567") == PhoneCheck(true, Some("5551234567"))
  {
    DigitsOfDigits("5551234567");
  }

  /** "ddd-ddd-dddd" validates to its ten digits. */
  lemma PhoneDashedFormat(a: string, b: string, c: string)
    requires AllDigits(a) && AllDigits(b) && AllDigits(c) && |a| + |b| + |c| == PhoneLength
    ensures ValidarNumeroTelefonico(a + "-" + b + "-" + c) == PhoneCheck(true, Some(a + b + c))
  {
    DigitsOfNonDigits("-");
    DigitsConcat(a, "-");
    DigitsConcat(a + "-", b);
    DigitsConcat(a + "-" + b, "-");
    DigitsConcat(a + "-" + b + "-", c);
    DigitsOfDigits(a);
    DigitsOfDigits(b);
    DigitsOfDigits(c);
    assert Digits(a + "-" + b + "-" + c) == a + b + c;
  }

  /** "(ddd) ddd dddd" validates to its ten digits. */
  lemma PhoneParenthesizedFormat(a: string, b: string, c: string)
    requires AllDigits(a) && AllDigits(b) && AllDigits(c) && |a| + |b| + |c| == PhoneLength
    ensures ValidarNumeroTelefonico("(" + a + ") " + b + " " + c) == PhoneCheck(true, Some(a + b + c))
  {
    DigitsOfNonDigits("(");
    DigitsOfNonDigits(") ");
    DigitsOfNonDigits(" ");
    DigitsConcat("(", a);
    DigitsConcat("(" + a, ") ");
    DigitsConcat("(" + a + ") ", b);
    DigitsConcat("(" + a + ") " + b, " ");
    DigitsConcat("(" + a + ") " + b + " ", c);
    DigitsOfDigits(a);
    DigitsOfDigits(b);
    DigitsOfDigits(c);
    assert Digits("(" + a + ") " + b + " " + c) == a + b + c;
  }

  lemma PhoneExampleDashed()
    ensures ValidarNumeroTelefonico("555-123-4567") == PhoneCheck(true, Some("5551234567"))
  {
    PhoneDashedFormat("555", "123", "4567");
    assert "555" + "-" + "123" + "-" + "4567" == "555-123-4567";
    assert "555" + "123" + "4567" == "5551234567";
  }

  lemma PhoneExampleParenthesized()
    ensures ValidarNumeroTelefonico("(555) 123 4567") == PhoneCheck(true, Some("5551234567"))
  {
    PhoneParenthesizedFormat("555", "123", "4567");
    assert "(" + "555" + ") " + "123" + " " + "4567" == "(555) 123 4567";
    assert "555" + "123" + "4567" == "5551234567";
  }

  /** Too few digits, or none at all, are rejected. */
  lemma PhoneExampleTooShort()
    ensures ValidarNumeroTelefonico("12345") == PhoneCheck(false, None)
  {
    DigitsOfDigits("12345");
  }

  lemma PhoneExampleNoDigits()
    ensures ValidarNumeroTelefonico("abcdefghij") == PhoneCheck(false, None)
  {
    DigitsOfNonDigits("abcdefghij");
  }
}
