/** Amounts between integer units and decimal strings. */
module Decimal {
  import opened Arithmetic
  import opened Options

  predicate IsDigit(c: char) { '0' <= c <= '9' }

  predicate AllDigits(s: string) { forall i :: 0 <= i < |s| ==> IsDigit(s[i]) }

  function DigitValue(c: char): nat
    requires IsDigit(c)
  {
    c as nat - '0' as nat
  }

  function DigitChar(n: nat): (c: char)
    requires n < 10
    ensures IsDigit(c) && DigitValue(c) == n
  {
    ('0' as nat + n) as char
  }

  function Pow10(k: nat): (p: nat)
    ensures p > 0
  {
    if k == 0 then 1 else 10 * Pow10(k - 1)
  }

  /** The number a run of digits spells. */
  function Value(s: string): nat
    requires AllDigits(s)
  {
    if s == "" then 0 else 10 * Value(s[..|s| - 1]) + DigitValue(s[|s| - 1])
  }

  function Digits(n: nat): (s: string)
    ensures AllDigits(s) && s != ""
  {
    if n < 10 then [DigitChar(n)] else Digits(n / 10) + [DigitChar(n % 10)]
  }

  function Zeros(k: nat): (s: string)
    ensures AllDigits(s) && |s| == k
  {
    if k == 0 then "" else Zeros(k - 1) + ['0']
  }

  function Minus(a: nat, b: nat): nat { if a > b then a - b else 0 }

  function PadStart(s: string, k: nat): string { Zeros(Minus(k, |s|)) + s }

  function PadEnd(s: string, k: nat): string { s + Zeros(Minus(k, |s|)) }

  function Take(s: string, k: nat): string { if k < |s| then s[..k] else s }

  function StripZeros(s: string): string {
    if s != "" && s[|s| - 1] == '0' then StripZeros(s[..|s| - 1]) else s
  }

  /** Integer units as a decimal string with at most dp fraction digits and no trailing zero. */
  function FromWei(wei: nat, decimals: nat, dp: nat): string {
    var s := PadStart(Digits(wei), decimals + 1);
    var whole := s[..|s| - decimals];
    var frac := StripZeros(Take(s[|s| - decimals..], dp));
    if frac != "" then whole + "." + frac else whole
  }

  /** The length of the leading run of digits. */
  function DigitRun(s: string): (k: nat)
    ensures k <= |s| && AllDigits(s[..k]) && (k < |s| ==> !IsDigit(s[k]))
  {
    if s == "" || !IsDigit(s[0]) then 0
    else
      var k := DigitRun(s[1..]);
      assert forall i :: 0 < i < 1 + k ==> s[i] == s[1..][..k][i - 1];
      1 + k
  }

  /** Digits, then optionally a point and more digits; None is the thrown error. */
  function Split(human: string): (r: Option<(string, string)>)
    ensures r.Some? ==> AllDigits(r.value.0) && AllDigits(r.value.1) && r.value.0 != ""
  {
    var k := DigitRun(human);
    if k == 0 then None
    else if k == |human| then Some((human[..k], ""))
    else if human[k] == '.' && AllDigits(human[k + 1..]) then Some((human[..k], human[k + 1..]))
    else None
  }

  /** A trimmed decimal string in integer units, digits past the decimals dropped. */
  function ToWei(human: string, decimals: nat): Option<nat> {
    var parts := Split(human);
    if parts.None? then None
    else Some(Value(parts.value.0 + PadEnd(Take(parts.value.1, decimals), decimals)))
  }

  // ----- digits and numbers

  lemma {:induction false} ValueOfDigits(n: nat)
    ensures Value(Digits(n)) == n
  {
    if n >= 10 {
      ValueOfDigits(n / 10);
      assert Digits(n)[..|Digits(n)| - 1] == Digits(n / 10);
    }
  }

  lemma {:induction false} ValueOfZeros(k: nat)
    ensures Value(Zeros(k)) == 0
  {
    if k > 0 {
      ValueOfZeros(k - 1);
      assert Zeros(k)[..k - 1] == Zeros(k - 1);
    }
  }

  lemma {:induction false} ValueOfConcat(a: string, b: string)
    requires AllDigits(a) && AllDigits(b)
    ensures Value(a + b) == Value(a) * Pow10(|b|) + Value(b)
  {
    if b == "" {
      assert a + b == a;
    } else {
      var n := |b| - 1;
      ValueOfConcat(a, b[..n]);
      assert (a + b)[..|a + b| - 1] == a + b[..n];
      assert Pow10(|b|) == 10 * Pow10(n);
      Tenfold(Value(a), Pow10(n));
    }
  }

  lemma Tenfold(a: nat, p: nat)
    ensures 10 * (a * p) == a * (10 * p)
  {
  }

  lemma {:induction false} ValueBelow(s: string)
    requires AllDigits(s)
    ensures Value(s) < Pow10(|s|)
  {
    if s != "" { ValueBelow(s[..|s| - 1]); }
  }

  lemma {:induction false} StripIsPrefix(s: string)
    requires AllDigits(s)
    ensures var h := StripZeros(s); |h| <= |s| && AllDigits(h) && s == h + Zeros(|s| - |h|)
  {
    if s != "" && s[|s| - 1] == '0' {
      var n := |s| - 1;
      StripIsPrefix(s[..n]);
      var h := StripZeros(s);
      assert s == s[..n] + ['0'];
      assert Zeros(|s| - |h|) == Zeros(n - |h|) + ['0'];
    } else {
      assert s + Zeros(0) == s;
    }
  }

  lemma {:induction false} ZerosAdd(a: nat, b: nat)
    ensures Zeros(a) + Zeros(b) == Zeros(a + b)
  {
    if b > 0 { ZerosAdd(a, b - 1); }
  }

  lemma {:induction false} RunOfDigits(s: string, rest: string)
    requires AllDigits(s) && (rest == "" || !IsDigit(rest[0]))
    ensures DigitRun(s + rest) == |s|
  {
    if s == "" {
      assert s + rest == rest;
    } else {
      RunOfDigits(s[1..], rest);
      assert (s + rest)[1..] == s[1..] + rest;
    }
  }

  lemma SplitBack(whole: string, frac: string)
    requires AllDigits(whole) && AllDigits(frac) && whole != ""
    ensures Split(if frac != "" then whole + "." + frac else whole) == Some((whole, frac))
  {
    if frac != "" {
      RunOfDigits(whole, "." + frac);
      var s := whole + "." + frac;
      assert s == whole + ("." + frac);
      assert s[..|whole|] == whole && s[|whole| + 1..] == frac;
    } else {
      RunOfDigits(whole, "");
      assert whole + "" == whole && whole[..|whole|] == whole;
    }
  }

  lemma Quotient(n: nat, p: nat)
    requires p > 0
    ensures n == n / p * p + n % p
  {
  }

  lemma Remainder(a: nat, p: nat, b: nat)
    requires b < p
    ensures (a * p + b) % p == b
  {
    var n := a * p + b;
    Quotient(n, p);
    if n / p < a { Scale(n / p + 1, a, p); }
    if a < n / p { Scale(a + 1, n / p, p); }
  }

  /** Dropping a digit suffix of length k keeps the number's multiple of 10^k. */
  lemma DroppedSuffix(kept: string, rest: string)
    requires AllDigits(kept) && AllDigits(rest)
    ensures var w, p := Value(kept + rest), Pow10(|rest|); Value(kept + Zeros(|rest|)) == w - w % p
  {
    hide Value, Pow10, Zeros;
    ValueOfConcat(kept, rest);
    ValueOfConcat(kept, Zeros(|rest|));
    ValueOfZeros(|rest|);
    ValueBelow(rest);
    Remainder(Value(kept), Pow10(|rest|), Value(rest));
  }

  /** The padded digits, as the printer cuts them. */
  function Padded(wei: nat, decimals: nat): (s: string)
    ensures AllDigits(s) && |s| > decimals
  {
    PadStart(Digits(wei), decimals + 1)
  }

  lemma ValueOfPadded(wei: nat, decimals: nat)
    ensures Value(Padded(wei, decimals)) == wei
  {
    hide Value, Digits, Zeros;
    ValueOfConcat(Zeros(Minus(decimals + 1, |Digits(wei)|)), Digits(wei));
    ValueOfZeros(Minus(decimals + 1, |Digits(wei)|));
    ValueOfDigits(wei);
  }

  /** Stripped zeros come back with the padding. */
  lemma Refill(shown: string, decimals: nat)
    requires AllDigits(shown) && |shown| <= decimals
    ensures AllDigits(StripZeros(shown))
    ensures PadEnd(Take(StripZeros(shown), decimals), decimals) == shown + Zeros(decimals - |shown|)
  {
    hide Zeros, StripZeros;
    var frac := StripZeros(shown);
    StripIsPrefix(shown);
    ZerosAdd(|shown| - |frac|, decimals - |shown|);
    assert Take(frac, decimals) == frac;
  }

  /** Parsing a printed amount refills what was cut or stripped with zeros. */
  lemma ParsePrinted(wei: nat, decimals: nat, dp: nat)
    ensures var s, k := Padded(wei, decimals), Minus(decimals, dp);
      ToWei(FromWei(wei, decimals, dp), decimals) == Some(Value(s[..|s| - k] + Zeros(k)))
  {
    hide Value, Digits, Zeros, Split, StripZeros, PadEnd, AllDigits;
    var s, k := Padded(wei, decimals), Minus(decimals, dp);
    var whole := s[..|s| - decimals];
    var shown := Take(s[|s| - decimals..], dp);
    SlicesAreDigits(s, decimals, dp);
    Refill(shown, decimals);
    SplitBack(whole, StripZeros(shown));
    assert |shown| == decimals - k;
    assert whole + shown == s[..|s| - k];
    assert whole + (shown + Zeros(k)) == whole + shown + Zeros(k);
  }

  lemma SlicesAreDigits(s: string, decimals: nat, dp: nat)
    requires AllDigits(s) && decimals < |s|
    ensures AllDigits(s[..|s| - decimals]) && AllDigits(Take(s[|s| - decimals..], dp))
    ensures AllDigits(s[..|s| - Minus(decimals, dp)])
  {
  }

  /** Printing and parsing back loses exactly the digits not shown, and nothing when all are. */
  lemma RoundTrip(wei: nat, decimals: nat, dp: nat)
    ensures ToWei(FromWei(wei, decimals, dp), decimals) == Some(wei - wei % Pow10(Minus(decimals, dp)))
    ensures dp >= decimals ==> ToWei(FromWei(wei, decimals, dp), decimals) == Some(wei)
  {
    hide Value, Padded, Zeros, ToWei, FromWei;
    var s, k := Padded(wei, decimals), Minus(decimals, dp);
    ValueOfPadded(wei, decimals);
    ParsePrinted(wei, decimals, dp);
    assert s == s[..|s| - k] + s[|s| - k..];
    DroppedSuffix(s[..|s| - k], s[|s| - k..]);
  }

  // ----- what each of the two says on its own

  /** The accepted strings are digits, or digits, a point and any digits; the two runs are then the parts. */
  lemma SplitIff(human: string, whole: string, frac: string)
    ensures Split(human) == Some((whole, frac)) <==>
      && AllDigits(whole) && AllDigits(frac) && whole != ""
      && (human == whole + "." + frac || (human == whole && frac == ""))
  {
    if AllDigits(whole) && AllDigits(frac) && whole != "" {
      if human == whole + "." + frac {
        RunOfDigits(whole, "." + frac);
        assert human == whole + ("." + frac);
        assert human[..|whole|] == whole && human[|whole| + 1..] == frac;
      } else if human == whole && frac == "" {
        SplitBack(whole, frac);
      }
    }
    if Split(human) == Some((whole, frac)) {
      var k := DigitRun(human);
      assert human == human[..k] + human[k..];
      if k < |human| { assert human[k..] == "." + human[k + 1..]; }
    }
  }

  /** Parsing is exact: the whole part in units, and the fraction digits up to the decimals. */
  lemma ToWeiMeans(human: string, decimals: nat, whole: string, frac: string)
    requires Split(human) == Some((whole, frac))
    ensures var shown := Take(frac, decimals);
      ToWei(human, decimals) == Some(Value(whole) * Pow10(decimals) + Value(shown) * Pow10(decimals - |shown|))
  {
    hide Value, Pow10, Split, Zeros;
    var shown := Take(frac, decimals);
    var k := decimals - |shown|;
    ValueOfConcat(whole, shown + Zeros(k));
    ValueOfConcat(shown, Zeros(k));
    ValueOfZeros(k);
    assert PadEnd(shown, decimals) == shown + Zeros(k);
  }

  lemma {:induction false} NoLeadingZero(n: nat)
    ensures n > 0 ==> Digits(n)[0] != '0'
  {
    if n >= 10 { NoLeadingZero(n / 10); }
  }

  lemma {:induction false} Stripped(s: string)
    ensures StripZeros(s) != "" ==> StripZeros(s)[|StripZeros(s)| - 1] != '0'
  {
    if s != "" && s[|s| - 1] == '0' { Stripped(s[..|s| - 1]); }
  }

  /** No leading zero but a lone one, at most dp fraction digits, no trailing zero. */
  predicate Canonical(whole: string, frac: string, decimals: nat, dp: nat) {
    && AllDigits(whole) && AllDigits(frac) && whole != "" && (|whole| > 1 ==> whole[0] != '0')
    && |frac| <= dp && |frac| <= decimals && (frac != "" ==> frac[|frac| - 1] != '0')
  }

  function Joined(whole: string, frac: string): string { if frac != "" then whole + "." + frac else whole }

  /** Every printed amount is canonical. */
  lemma PrintedIsCanonical(wei: nat, decimals: nat, dp: nat)
    ensures exists whole, frac ::
      Canonical(whole, frac, decimals, dp) && FromWei(wei, decimals, dp) == Joined(whole, frac)
  {
    hide Padded, StripZeros, Canonical;
    var s := Padded(wei, decimals);
    var whole := s[..|s| - decimals];
    var shown := Take(s[|s| - decimals..], dp);
    PartsAreCanonical(wei, decimals, dp);
    assert FromWei(wei, decimals, dp) == Joined(whole, StripZeros(shown)) by {
      PrintsPadded(wei, decimals, dp);
    }
  }

  lemma PrintsPadded(wei: nat, decimals: nat, dp: nat)
    ensures var s := Padded(wei, decimals);
      FromWei(wei, decimals, dp) == Joined(s[..|s| - decimals], StripZeros(Take(s[|s| - decimals..], dp)))
  {
    hide StripZeros, Digits, Zeros;
  }

  lemma PartsAreCanonical(wei: nat, decimals: nat, dp: nat)
    ensures var s := Padded(wei, decimals);
      Canonical(s[..|s| - decimals], StripZeros(Take(s[|s| - decimals..], dp)), decimals, dp)
  {
    hide Padded, StripZeros, Digits;
    var s := Padded(wei, decimals);
    var shown := Take(s[|s| - decimals..], dp);
    SlicesAreDigits(s, decimals, dp);
    Stripped(shown);
    StripIsPrefix(shown);
    WholeHasNoZero(wei, decimals);
  }

  lemma WholeHasNoZero(wei: nat, decimals: nat)
    ensures var s := Padded(wei, decimals); |s| - decimals > 1 ==> s[0] != '0'
  {
    NoLeadingZero(wei);
    assert Zeros(0) == "";
    assert wei == 0 ==> |Digits(wei)| == 1;
  }

  // ----- a canonical string is the only one of its amount

  lemma {:induction false} SameDigits(a: string, b: string)
    requires AllDigits(a) && AllDigits(b) && |a| == |b| && Value(a) == Value(b)
    ensures a == b
  {
    if a != "" {
      var n := |a| - 1;
      SameDigits(a[..n], b[..n]);
      assert a == a[..n] + [a[n]] && b == b[..n] + [b[n]];
    }
  }

  lemma {:induction false} ValueAtLeast(s: string)
    requires AllDigits(s) && s != "" && s[0] != '0'
    ensures Value(s) >= Pow10(|s| - 1)
  {
    if |s| > 1 { ValueAtLeast(s[..|s| - 1]); }
  }

  lemma {:induction false} PowerGrows(a: nat, b: nat)
    requires a <= b
    ensures Pow10(a) <= Pow10(b)
  {
    if a < b { PowerGrows(a, b - 1); }
  }

  /** The digits the parser reads off a canonical string. */
  function Read(whole: string, frac: string, decimals: nat): string { whole + PadEnd(Take(frac, decimals), decimals) }

  lemma NotLonger(whole: string, frac: string, whole2: string, frac2: string, decimals: nat, dp: nat)
    requires Canonical(whole, frac, decimals, dp) && Canonical(whole2, frac2, decimals, dp)
    requires Value(Read(whole, frac, decimals)) == Value(Read(whole2, frac2, decimals))
    ensures |whole| <= |whole2|
  {
    hide Value, Zeros;
    var a, b := Read(whole, frac, decimals), Read(whole2, frac2, decimals);
    if |whole| > |whole2| {
      ValueAtLeast(a);
      ValueBelow(b);
      PowerGrows(|b|, |a| - 1);
    }
  }

  lemma {:induction false} AllZeros(k: nat)
    ensures forall i :: 0 <= i < k ==> Zeros(k)[i] == '0'
  {
    if k > 0 { AllZeros(k - 1); }
  }

  lemma SameStripped(a: string, b: string, k: nat)
    requires |a| <= |b| <= k && a + Zeros(k - |a|) == b + Zeros(k - |b|) && (b != "" ==> b[|b| - 1] != '0')
    ensures a == b
  {
    hide Zeros;
    AllZeros(k - |a|);
    var padded := a + Zeros(k - |a|);
    assert padded[..|b|] == b && padded[..|a|] == a;
    assert forall i :: |a| <= i < |b| ==> padded[i] == '0';
  }

  lemma SameParts(whole: string, frac: string, whole2: string, frac2: string, decimals: nat, dp: nat)
    requires Canonical(whole, frac, decimals, dp) && Canonical(whole2, frac2, decimals, dp)
    requires Value(Read(whole, frac, decimals)) == Value(Read(whole2, frac2, decimals))
    ensures whole == whole2 && frac == frac2
  {
    hide Value, Zeros;
    NotLonger(whole, frac, whole2, frac2, decimals, dp);
    NotLonger(whole2, frac2, whole, frac, decimals, dp);
    var a, b := Read(whole, frac, decimals), Read(whole2, frac2, decimals);
    SameDigits(a, b);
    assert a[..|whole|] == whole && b[..|whole|] == whole2;
    assert a[|whole|..] == frac + Zeros(decimals - |frac|) && b[|whole|..] == frac2 + Zeros(decimals - |frac2|);
    if |frac| <= |frac2| { SameStripped(frac, frac2, decimals); } else { SameStripped(frac2, frac, decimals); }
  }

  /** The printed string is the canonical one that parses to the amount shown: there is no other. */
  lemma PrintedIff(wei: nat, decimals: nat, dp: nat, s: string)
    ensures s == FromWei(wei, decimals, dp) <==>
      && ToWei(s, decimals) == Some(wei - wei % Pow10(Minus(decimals, dp)))
      && exists whole, frac :: Canonical(whole, frac, decimals, dp) && s == Joined(whole, frac)
  {
    hide Value, Pow10, Canonical, Split, FromWei;
    RoundTrip(wei, decimals, dp);
    PrintedIsCanonical(wei, decimals, dp);
    var whole, frac :| Canonical(whole, frac, decimals, dp) && FromWei(wei, decimals, dp) == Joined(whole, frac);
    ReadJoined(whole, frac, decimals, dp);
    forall whole2, frac2 | Canonical(whole2, frac2, decimals, dp) && s == Joined(whole2, frac2)
      ensures ToWei(s, decimals) == ToWei(Joined(whole, frac), decimals) ==> s == Joined(whole, frac)
    {
      ReadJoined(whole2, frac2, decimals, dp);
      if ToWei(s, decimals) == ToWei(Joined(whole, frac), decimals) {
        SameParts(whole, frac, whole2, frac2, decimals, dp);
      }
    }
  }

  lemma ReadJoined(whole: string, frac: string, decimals: nat, dp: nat)
    requires Canonical(whole, frac, decimals, dp)
    ensures AllDigits(Read(whole, frac, decimals))
    ensures ToWei(Joined(whole, frac), decimals) == Some(Value(Read(whole, frac, decimals)))
  {
    hide Value, Split, Zeros;
    SplitBack(whole, frac);
  }
}
