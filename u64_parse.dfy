/** What `str::parse::<u64>` accepts: an optional leading '+', then one or
    more ASCII decimal digits (leading zeros allowed) whose value fits in
    64 unsigned bits. A lone '+', a '-' sign, the empty string, any other
    character and any value above 2^64 - 1 are rejected. */
module U64Parse {
  import opened Wrappers

  const U64Max: nat := 0xFFFF_FFFF_FFFF_FFFF

  predicate IsDigit(c: char)
  {
    '0' <= c <= '9'
  }

  predicate AllDigits(s: string)
  {
    forall i :: 0 <= i < |s| ==> IsDigit(s[i])
  }

  function DigitValue(c: char): (d: nat)
    requires IsDigit(c)
    ensures d < 10
  {
    c as int - '0' as int
  }

  function DigitChar(d: nat): (c: char)
    requires d < 10
    ensures IsDigit(c) && DigitValue(c) == d
  {
    ('0' as int + d) as char
  }

  /** The number a string of digits denotes, read most significant digit first. */
  function DigitsValue(ds: string): nat
    requires AllDigits(ds)
    decreases |ds|
  {
    if ds == [] then 0
    else DigitsValue(ds[..|ds| - 1]) * 10 + DigitValue(ds[|ds| - 1])
  }

  /** The digits after the optional leading '+'. */
  function Unsigned(s: string): string
  {
    if |s| > 0 && s[0] == '+' then s[1..] else s
  }

  /** `s.parse::<u64>()`: the value when it is `Ok`, `None` when it is `Err`. */
  function ParseU64(s: string): (r: Option<nat>)
    ensures r.Some? ==> r.value <= U64Max
  {
    var ds := Unsigned(s);
    if |ds| > 0 && AllDigits(ds) && DigitsValue(ds) <= U64Max then Some(DigitsValue(ds)) else None
  }

  /** The shortest decimal rendering of `n`, with no sign and no leading zero. */
  function Decimal(n: nat): (s: string)
    ensures |s| >= 1 && AllDigits(s)
    ensures |s| > 1 ==> s[0] != '0'
  {
    if n < 10 then [DigitChar(n)] else Decimal(n / 10) + [DigitChar(n % 10)]
  }

  function Zeros(k: nat): (s: string)
    ensures |s| == k && AllDigits(s)
  {
    if k == 0 then "" else Zeros(k - 1) + "0"
  }

  /** Reading back the rendering of `n` gives `n`. */
  lemma {:induction false} DigitsValueOfDecimal(n: nat)
    ensures DigitsValue(Decimal(n)) == n
  {
    if n >= 10 {
      var ds := Decimal(n);
      assert ds[..|ds| - 1] == Decimal(n / 10);
      DigitsValueOfDecimal(n / 10);
    }
  }

  /** Leading zeros do not change the value. */
  lemma {:induction false} DigitsValueOfZerosPrefix(k: nat, ds: string)
    requires AllDigits(ds)
    ensures AllDigits(Zeros(k) + ds) && DigitsValue(Zeros(k) + ds) == DigitsValue(ds)
    decreases |ds|
  {
    var s := Zeros(k) + ds;
    assert AllDigits(s) by {
      forall i | 0 <= i < |s| ensures IsDigit(s[i]) {
        if i < k { assert s[i] == Zeros(k)[i]; } else { assert s[i] == ds[i - k]; }
      }
    }
    if ds == [] {
      assert s == Zeros(k);
      ZerosValue(k);
    } else {
      var init := ds[..|ds| - 1];
      assert s[..|s| - 1] == Zeros(k) + init;
      DigitsValueOfZerosPrefix(k, init);
    }
  }

  lemma {:induction false} ZerosValue(k: nat)
    ensures DigitsValue(Zeros(k)) == 0
  {
    if k > 0 {
      assert Zeros(k)[..k - 1] == Zeros(k - 1);
      ZerosValue(k - 1);
    }
  }

  /** Every non-empty digit string is the rendering of its value behind some zeros. */
  lemma {:induction false} DigitsShape(ds: string) returns (k: nat)
    requires |ds| > 0 && AllDigits(ds)
    ensures ds == Zeros(k) + Decimal(DigitsValue(ds))
    decreases |ds|
  {
    var last := ds[|ds| - 1];
    var init := ds[..|ds| - 1];
    if init == [] {
      k := 0;
      assert Decimal(DigitValue(last)) == [DigitChar(DigitValue(last))];
      assert DigitChar(DigitValue(last)) == last;
    } else {
      var k0 := DigitsShape(init);
      var v0 := DigitsValue(init);
      var v := DigitsValue(ds);
      assert v == v0 * 10 + DigitValue(last);
      assert DigitChar(DigitValue(last)) == last;
      if v0 == 0 {
        k := k0 + 1;
        assert Decimal(0) == "0";
        assert init == Zeros(k);
        assert Decimal(v) == [last];
        assert ds == init + [last];
      } else {
        k := k0;
        assert v / 10 == v0 && v % 10 == DigitValue(last);
        assert Decimal(v) == Decimal(v0) + [last];
        assert ds == init + [last];
      }
    }
  }

  /** A digit string, with or without a leading '+', parses to its value when that fits. */
  lemma ParseDigits(ds: string)
    requires |ds| > 0 && AllDigits(ds)
    ensures Unsigned(ds) == ds && Unsigned("+" + ds) == ds
    ensures ParseU64(ds) == ParseU64("+" + ds)
    ensures ParseU64(ds) == if DigitsValue(ds) <= U64Max then Some(DigitsValue(ds)) else None
  {
  }

  /** Whatever parses is a '+'-optional run of zeros before the rendering of its value. */
  lemma ParsedShape(s: string) returns (k: nat)
    requires ParseU64(s).Some?
    ensures var n := ParseU64(s).value;
            s == Zeros(k) + Decimal(n) || s == "+" + Zeros(k) + Decimal(n)
  {
    var ds := Unsigned(s);
    k := DigitsShape(ds);
    if |s| > 0 && s[0] == '+' {
      assert s == "+" + ds;
    }
  }

  /** A '+'-optional run of zeros before the rendering of a u64 parses to that u64. */
  lemma ShapeParses(n: nat, k: nat)
    requires n <= U64Max
    ensures ParseU64(Zeros(k) + Decimal(n)) == Some(n)
    ensures ParseU64("+" + Zeros(k) + Decimal(n)) == Some(n)
  {
    var ds := Zeros(k) + Decimal(n);
    DigitsValueOfZerosPrefix(k, Decimal(n));
    DigitsValueOfDecimal(n);
    ParseDigits(ds);
    assert "+" + Zeros(k) + Decimal(n) == "+" + ds;
  }

  /** Exactly the strings "+"? zeros* decimal(n) parse, and they parse to n,
      for every n that fits in 64 unsigned bits. */
  lemma ParseU64Iff(s: string, n: nat)
    ensures ParseU64(s) == Some(n) <==>
            n <= U64Max &&
            exists k: nat :: s == Zeros(k) + Decimal(n) || s == "+" + Zeros(k) + Decimal(n)
  {
    if ParseU64(s) == Some(n) {
      var k := ParsedShape(s);
    }
    if n <= U64Max && exists k: nat :: s == Zeros(k) + Decimal(n) || s == "+" + Zeros(k) + Decimal(n) {
      var k: nat :| s == Zeros(k) + Decimal(n) || s == "+" + Zeros(k) + Decimal(n);
      ShapeParses(n, k);
    }
  }

  /** The canonical rendering of any u64, signed or not, parses back to it. */
  lemma ParseDecimal(n: nat)
    requires n <= U64Max
    ensures ParseU64(Decimal(n)) == Some(n)
    ensures ParseU64("+" + Decimal(n)) == Some(n)
  {
    DigitsValueOfDecimal(n);
    ParseDigits(Decimal(n));
  }

  /** A value of 2^64 or more is rejected, however it is written. */
  lemma ParseOverflow(n: nat, k: nat)
    requires n > U64Max
    ensures ParseU64(Zeros(k) + Decimal(n)) == None
    ensures ParseU64("+" + Zeros(k) + Decimal(n)) == None
  {
    DigitsValueOfZerosPrefix(k, Decimal(n));
    DigitsValueOfDecimal(n);
    var ds := Zeros(k) + Decimal(n);
    ParseDigits(ds);
    assert "+" + Zeros(k) + Decimal(n) == "+" + ds;
  }

  /** Signs other than a single leading '+', and empty digit strings, are rejected. */
  lemma ParseRejectsSigns(s: string)
    ensures ParseU64("") == None
    ensures ParseU64("+") == None
    ensures ParseU64("-" + s) == None
    ensures ParseU64("++" + s) == None
  {
  }
}
