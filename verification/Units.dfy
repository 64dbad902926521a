/** Amounts as text (go/rail/types.go): exact decimal parsing and printing. */
module Units {
  import opened Types

  function Pow10(n: nat): nat
    ensures Pow10(n) > 0
  {
    if n == 0 then 1 else 10 * Pow10(n - 1)
  }

  predicate IsDigit(c: char) { '0' <= c <= '9' }

  predicate AllDigits(s: string) { forall i :: 0 <= i < |s| ==> IsDigit(s[i]) }

  /** The number a string of digits writes. */
  function Number(s: string): nat
    requires AllDigits(s)
  {
    if s == "" then 0 else Number(s[..|s| - 1]) * 10 + (s[|s| - 1] as int - '0' as int)
  }

  function Zeros(n: nat): (s: string)
    ensures |s| == n && AllDigits(s) && forall i :: 0 <= i < n ==> s[i] == '0'
  {
    seq(n, _ => '0')
  }

  /** The white space that strings.TrimSpace removes. */
  predicate IsSpace(c: char) {
    var n := c as int;
    || 0x09 <= n <= 0x0D || n == 0x20 || n == 0x85 || n == 0xA0 || n == 0x1680
    || 0x2000 <= n <= 0x200A || n == 0x2028 || n == 0x2029 || n == 0x202F || n == 0x205F || n == 0x3000
  }

  /** What is left begins and ends with none of it. */
  function TrimSpace(s: string): (t: string)
    ensures t != "" ==> !IsSpace(t[0]) && !IsSpace(t[|t| - 1])
    ensures |t| <= |s|
  {
    if s != "" && IsSpace(s[0]) then TrimSpace(s[1..])
    else if s != "" && IsSpace(s[|s| - 1]) then TrimSpace(s[..|s| - 1])
    else s
  }

  /** And what was removed, before index i and from index j on, is white space. */
  lemma {:induction false} TrimmedIsSpace(s: string) returns (i: nat, j: nat)
    ensures i <= j <= |s| && TrimSpace(s) == s[i..j]
    ensures forall k :: 0 <= k < i || j <= k < |s| ==> IsSpace(s[k])
    decreases |s|
  {
    hide IsSpace;
    if s != "" && IsSpace(s[0]) {
      var rest := s[1..];
      i, j := TrimmedIsSpace(rest);
      i, j := i + 1, j + 1;
      forall k | 0 <= k < i || j <= k < |s| ensures IsSpace(s[k]) {
        assert k > 0 ==> s[k] == rest[k - 1];
      }
    } else if s != "" && IsSpace(s[|s| - 1]) {
      var rest := s[..|s| - 1];
      i, j := TrimmedIsSpace(rest);
      forall k | 0 <= k < i || j <= k < |s| ensures IsSpace(s[k]) {
        assert k < |rest| ==> s[k] == rest[k];
      }
    } else {
      i, j := 0, |s|;
    }
  }

  /** Where the first decimal point is; the length if there is none. */
  function Point(s: string): (k: nat)
    ensures k <= |s| && (k < |s| ==> s[k] == '.') && forall i :: 0 <= i < k ==> s[i] != '.'
  {
    if s == "" || s[0] == '.' then 0 else 1 + Point(s[1..])
  }

  function Whole(text: string): string {
    var k := Point(text);
    if k == 0 then "0" else text[..k]
  }

  function Frac(text: string): string {
    var k := Point(text);
    if k == |text| then "" else text[k + 1..]
  }

  /** A text is an amount when it writes a decimal number with no more places
      than the token has. */
  predicate IsAmount(s: string, decimals: nat) {
    var text := TrimSpace(s);
    text != "" && |Frac(text)| <= decimals && AllDigits(Whole(text)) && AllDigits(Frac(text))
  }

  /** What an amount is worth in base units: whole + frac / 10^|frac|, times 10^decimals. */
  function Worth(s: string, decimals: nat): nat
    requires IsAmount(s, decimals)
  {
    var text := TrimSpace(s);
    Number(Whole(text)) * Pow10(decimals) + Number(Frac(text)) * Pow10(decimals - |Frac(text)|)
  }

  method ParseUnits(s: string, decimals: nat) returns (r: Result<nat>)
    ensures r == if IsAmount(s, decimals) then Ok(Worth(s, decimals)) else Err(BadInput)
  {
    var text := TrimSpace(s);
    if text == "" { return Err(BadInput); }
    var whole, frac := Whole(text), Frac(text);
    if |frac| > decimals { return Err(BadInput); }
    var digits := whole + frac + Zeros(decimals - |frac|);
    JoinedDigits(whole, frac, decimals);
    var v := ReadDigits(digits);
    if v.None? { return Err(BadInput); }
    JoinedWorth(whole, frac, decimals);
    return Ok(v.value);
  }

  /** The scan over the digits. */
  method ReadDigits(digits: string) returns (r: Option<nat>)
    ensures r == if AllDigits(digits) then Some(Number(digits)) else None
  {
    var v, i := 0, 0;
    while i < |digits|
      invariant 0 <= i <= |digits|
      invariant AllDigits(digits[..i])
      invariant v == Number(digits[..i])
    {
      if !IsDigit(digits[i]) { return None; }
      v := v * 10 + (digits[i] as int - '0' as int);
      i := i + 1;
      assert digits[..i][..i - 1] == digits[..i - 1];
    }
    assert digits[..i] == digits;
    return Some(v);
  }

  lemma JoinedDigits(whole: string, frac: string, decimals: nat)
    requires |frac| <= decimals
    ensures AllDigits(whole + frac + Zeros(decimals - |frac|)) <==> AllDigits(whole) && AllDigits(frac)
  {
    var digits := whole + frac + Zeros(decimals - |frac|);
    assert forall k :: 0 <= k < |whole| ==> whole[k] == digits[k];
    assert forall k :: 0 <= k < |frac| ==> frac[k] == digits[|whole| + k];
  }

  lemma TenTimes(n: nat, scale: nat, rest: nat)
    ensures (n * scale + rest) * 10 == n * (10 * scale) + rest * 10
  {
  }

  lemma {:induction false} NumberConcat(a: string, b: string)
    requires AllDigits(a) && AllDigits(b)
    ensures AllDigits(a + b) && Number(a + b) == Number(a) * Pow10(|b|) + Number(b)
    decreases |b|
  {
    if b == "" {
      assert a + b == a;
    } else {
      var front := b[..|b| - 1];
      NumberConcat(a, front);
      assert (a + b)[..|a + b| - 1] == a + front;
      TenTimes(Number(a), Pow10(|front|), Number(front));
    }
  }

  lemma {:induction false} NumberZeros(n: nat)
    ensures Number(Zeros(n)) == 0
  {
    if n > 0 {
      assert Zeros(n)[..n - 1] == Zeros(n - 1);
      NumberZeros(n - 1);
    }
  }

  lemma JoinedWorth(whole: string, frac: string, decimals: nat)
    requires AllDigits(whole) && AllDigits(frac) && |frac| <= decimals
    ensures var digits := whole + frac + Zeros(decimals - |frac|);
            AllDigits(digits)
            && Number(digits) == Number(whole) * Pow10(decimals) + Number(frac) * Pow10(decimals - |frac|)
  {
    var pad := Zeros(decimals - |frac|);
    NumberConcat(frac, pad);
    NumberZeros(decimals - |frac|);
    NumberConcat(whole, frac + pad);
    assert whole + frac + pad == whole + (frac + pad);
  }

  /** The decimal numeral of a number, without leading zeros. */
  function Numeral(v: nat): (s: string)
    ensures s != "" && AllDigits(s)
  {
    var last := ['0' + (v % 10) as char];
    if v < 10 then last else Numeral(v / 10) + last
  }

  lemma {:induction false} NumeralWrites(v: nat)
    ensures Number(Numeral(v)) == v
  {
    var s := Numeral(v);
    if v < 10 {
      assert s[..|s| - 1] == "";
    } else {
      NumeralWrites(v / 10);
      assert s[..|s| - 1] == Numeral(v / 10);
    }
  }

  lemma {:induction false} NumeralLength(v: nat, n: nat)
    requires n >= 1 && v < Pow10(n)
    ensures |Numeral(v)| <= n
    decreases n
  {
    if v >= 10 {
      assert Pow10(n) == 10 * Pow10(n - 1);
      assert n != 1 by { assert Pow10(0) == 1; }
      NumeralLength(v / 10, n - 1);
    }
  }

  function TrimZeros(s: string): (r: string)
    ensures |r| <= |s| && s == r + Zeros(|s| - |r|)
  {
    if s != "" && s[|s| - 1] == '0' then TrimZeros(s[..|s| - 1]) else s
  }

  /** The fraction's digits, padded on the left to the token's decimals. */
  function Padded(frac: nat, decimals: nat): string {
    var s := Numeral(frac);
    if |s| < decimals then Zeros(decimals - |s|) + s else s
  }

  /** Quotient and remainder by a scale. */
  function Split(v: nat, scale: nat): (r: (nat, nat))
    requires scale > 0
    ensures v == r.0 * scale + r.1 && r.1 < scale
  {
    (v / scale, v % scale)
  }

  /** Zeros appended up to two digits. */
  function Places(digits: string): string {
    if |digits| < 2 then digits + Zeros(2 - |digits|) else digits
  }

  function Layout(whole: nat, frac: nat, decimals: nat): string {
    Numeral(whole) + "." + Places(TrimZeros(Padded(frac, decimals)))
  }

  function Printed(v: nat, decimals: nat): string {
    var (whole, frac) := Split(v, Pow10(decimals));
    Layout(whole, frac, decimals)
  }

  method FormatUnits(v: nat, decimals: nat) returns (s: string)
    ensures s == Printed(v, decimals)
  {
    var scale := Pow10(decimals);
    var (whole, frac) := Split(v, scale);
    var digits := TwoPlaces(TrimZeros(Padded(frac, decimals)));
    s := Numeral(whole) + "." + digits;
  }

  /** The loop that pads to two places. */
  method TwoPlaces(start: string) returns (digits: string)
    ensures digits == Places(start)
  {
    digits := start;
    while |digits| < 2
      invariant |start| <= |digits| && (|start| >= 2 ==> digits == start) && (|start| < 2 ==> |digits| <= 2)
      invariant digits == start + Zeros(|digits| - |start|)
      decreases 2 - |digits|
    {
      digits := digits + "0";
    }
  }

  lemma LayoutParts(whole: nat, frac: nat, decimals: nat)
    ensures var text := Layout(whole, frac, decimals);
            var places := Places(TrimZeros(Padded(frac, decimals)));
            && TrimSpace(text) == text != ""
            && Whole(text) == Numeral(whole) && Frac(text) == places
            && |places| >= 2 && AllDigits(places)
  {
    PlacesAreDigits(Padded(frac, decimals));
    TextParts(Numeral(whole), Places(TrimZeros(Padded(frac, decimals))));
  }

  lemma PlacesAreDigits(padded: string)
    requires AllDigits(padded)
    ensures var places := Places(TrimZeros(padded)); |places| >= 2 && AllDigits(places)
  {
    var digits := TrimZeros(padded);
    assert forall i :: 0 <= i < |digits| ==> digits[i] == padded[i];
  }

  lemma TextParts(w: string, places: string)
    requires w != "" && places != "" && AllDigits(w) && AllDigits(places)
    ensures var text := w + "." + places;
            TrimSpace(text) == text != "" && Whole(text) == w && Frac(text) == places
  {
    var text := w + "." + places;
    assert IsDigit(text[0]) by { assert text[0] == w[0]; }
    assert IsDigit(text[|text| - 1]) by { assert text[|text| - 1] == places[|places| - 1]; }
    PointAfterDigits(w, places);
    assert text[..|w|] == w && text[|w| + 1..] == places;
  }

  lemma PointAfterDigits(w: string, rest: string)
    requires AllDigits(w)
    ensures Point(w + "." + rest) == |w|
  {
    var text := w + "." + rest;
    assert text[|w|] == '.';
    assert forall i :: 0 <= i < |w| ==> text[i] == w[i];
  }

  /** Parsing what was printed gives the amount back exactly when the token has at
      least two decimals: printing always shows two places, and parsing refuses
      more places than the token has. */
  lemma RoundTripExactly(v: nat, decimals: nat)
    ensures IsAmount(Printed(v, decimals), decimals) && Worth(Printed(v, decimals), decimals) == v
            <==> decimals >= 2
  {
    var (whole, frac) := Split(v, Pow10(decimals));
    LayoutParts(whole, frac, decimals);
    if decimals >= 2 {
      LayoutWorth(whole, frac, decimals);
    }
  }

  /** What is printed is the shortest such text: no leading zeros, and no trailing ones
      beyond two places. */
  lemma PrintedIsShortest(v: nat, decimals: nat)
    ensures var text := Printed(v, decimals);
            && Whole(text) == Numeral(v / Pow10(decimals)) && (|Whole(text)| > 1 ==> Whole(text)[0] != '0')
            && |Frac(text)| >= 2 && (|Frac(text)| > 2 ==> Frac(text)[|Frac(text)| - 1] != '0')
  {
    var (whole, frac) := Split(v, Pow10(decimals));
    LayoutParts(whole, frac, decimals);
    NumeralLeads(whole);
    TrimmedEnd(Padded(frac, decimals));
  }

  lemma {:induction false} NumeralLeads(v: nat)
    ensures |Numeral(v)| > 1 ==> Numeral(v)[0] != '0'
    ensures v > 0 ==> Numeral(v)[0] != '0'
  {
    if v >= 10 { NumeralLeads(v / 10); }
  }

  lemma {:induction false} TrimmedEnd(s: string)
    ensures TrimZeros(s) != "" ==> TrimZeros(s)[|TrimZeros(s)| - 1] != '0'
  {
    if s != "" && s[|s| - 1] == '0' { TrimmedEnd(s[..|s| - 1]); }
  }

  lemma LayoutWorth(whole: nat, frac: nat, decimals: nat)
    requires decimals >= 2 && frac < Pow10(decimals)
    ensures var text := Layout(whole, frac, decimals);
            IsAmount(text, decimals) && Worth(text, decimals) == whole * Pow10(decimals) + frac
  {
    LayoutParts(whole, frac, decimals);
    PaddedWorth(frac, decimals);
    PlacesWorth(Padded(frac, decimals));
    NumeralWrites(whole);
  }

  lemma PaddedWorth(frac: nat, decimals: nat)
    requires decimals >= 1 && frac < Pow10(decimals)
    ensures var s := Padded(frac, decimals); |s| == decimals && AllDigits(s) && Number(s) == frac
  {
    NumeralLength(frac, decimals);
    var n := Numeral(frac);
    var lead := Zeros(decimals - |n|);
    assert Padded(frac, decimals) == lead + n;
    NumberConcat(lead, n);
    NumberZeros(decimals - |n|);
    NumeralWrites(frac);
  }

  /** Dropping trailing zeros, down to two places, loses nothing. */
  lemma PlacesWorth(s: string)
    requires |s| >= 2 && AllDigits(s)
    ensures var places := Places(TrimZeros(s));
            AllDigits(places) && |places| <= |s| && Number(places) * Pow10(|s| - |places|) == Number(s)
  {
    var trimmed := TrimZeros(s);
    assert forall i :: 0 <= i < |trimmed| ==> trimmed[i] == s[i];
    var places := Places(trimmed);
    var rest := Zeros(|s| - |places|);
    assert places + rest == s;
    NumberConcat(places, rest);
    NumberZeros(|s| - |places|);
  }

  /** The whole and the fraction are what stands before and after the point. */
  lemma Parts(text: string) returns (whole: string, frac: string)
    requires AllDigits(Whole(text)) && AllDigits(Frac(text))
    ensures text == whole + "." + frac || (text == whole && frac == "")
    ensures AllDigits(whole) && Number(whole) == Number(Whole(text)) && frac == Frac(text)
  {
    var k := Point(text);
    whole, frac := text[..k], Frac(text);
    assert Number("0") == 0 && Number("") == 0;
    assert k < |text| ==> text == whole + "." + frac;
  }

  /** Every accepted text is worth exactly its decimal value times 10^decimals. */
  lemma AcceptedTextIsExact(s: string, decimals: nat) returns (whole: string, frac: string)
    requires IsAmount(s, decimals)
    ensures TrimSpace(s) == whole + "." + frac || (TrimSpace(s) == whole && frac == "")
    ensures AllDigits(whole) && AllDigits(frac) && |frac| <= decimals
    ensures Worth(s, decimals) * Pow10(|frac|) == Number(whole + frac) * Pow10(decimals)
  {
    var text := TrimSpace(s);
    whole, frac := Parts(text);
    hide Pow10, Number, TrimSpace, Point;
    NumberConcat(whole, frac);
    Pow10Sum(|frac|, decimals - |frac|);
    Rescale(Number(whole), Number(frac), Pow10(|frac|), Pow10(decimals - |frac|));
  }

  lemma Rescale(w: nat, n: nat, a: nat, b: nat)
    ensures (w * (a * b) + n * b) * a == (w * a + n) * (a * b)
  {
    assert (w * (a * b)) * a == (w * a) * (a * b);
    assert (n * b) * a == n * (a * b);
  }

  lemma {:induction false} Pow10Sum(a: nat, b: nat)
    ensures Pow10(a + b) == Pow10(a) * Pow10(b)
    decreases a
  {
    if a > 0 {
      Pow10Sum(a - 1, b);
      assert Pow10(a) * Pow10(b) == 10 * (Pow10(a - 1) * Pow10(b));
    }
  }
}
