/** Uptime in seconds split into hours, minutes and seconds (src/time.rs). */
module Time {
  import opened Wrappers

  const U8: nat := 0x100
  const U16: nat := 0x1_0000
  const U32: nat := 0x1_0000_0000

  /** From this many seconds on, the hour count no longer fits the `u16` field. */
  const HoursLimit: nat := U16 * 3600

  /** `Time { hours: u16, mins: u8, secs: u8 }`. */
  datatype Time = Time(hours: nat, mins: nat, secs: nat)

  /** A positive multiple of `d` is at least `d`. */
  lemma {:induction false} MultipleAtLeast(d: nat, n: nat)
    requires n >= 1
    ensures d * n >= d
  {
    if n > 1 {
      MultipleAtLeast(d, n - 1);
      assert d * n == d * (n - 1) + d;
    }
  }

  /** Euclidean division has a unique quotient and remainder. */
  lemma DivModUnique(a: int, d: int, q: int, r: int)
    requires 0 < d && 0 <= r < d && a == d * q + r
    ensures a / d == q && a % d == r
  {
    var q', r' := a / d, a % d;
    assert a == d * q' + r';
    assert d * q - d * q' == r' - r;
    if q' < q {
      assert d * (q - q') == d * q - d * q';
      MultipleAtLeast(d, q - q');
    } else if q < q' {
      assert d * (q' - q) == d * q' - d * q;
      MultipleAtLeast(d, q' - q);
    }
  }

  /** `Time::from_secs` with its products computed in `u32`, as the code evidently
      intends; the `as u16` and `as u8` casts truncate as written. */
  function FromSecs(s: nat): (t: Time)
    requires s < U32
    ensures t == Time((s / 3600) % U16, s % 3600 / 60, s % 60)
  {
    var hours := (s / 3600) % U16;
    var mins := ((s - 3600 * hours) / 60) % U8;
    var secs := (s - 3600 * hours - 60 * mins) % U8;
    FromSecsClosedForm(s);
    Time(hours, mins, secs)
  }

  /** The arithmetic behind `FromSecs`: the truncating casts lose only whole
      multiples of 65536 hours, which are multiples of 256 minutes and seconds. */
  lemma FromSecsClosedForm(s: nat)
    ensures var hours := (s / 3600) % U16;
            var mins := ((s - 3600 * hours) / 60) % U8;
            && mins == s % 3600 / 60
            && (s - 3600 * hours - 60 * mins) % U8 == s % 60
  {
    var H, r := s / 3600, s % 3600;
    var k, h := H / U16, H % U16;
    assert s == 3600 * H + r;
    assert H == U16 * k + h;
    assert s - 3600 * h == 3600 * U16 * k + r;
    assert r == 60 * (r / 60) + r % 60;
    DivModUnique(s - 3600 * h, 60, 60 * U16 * k + r / 60, r % 60);
    DivModUnique(60 * U16 * k + r / 60, U8, 60 * 256 * k, r / 60);
    var m := r / 60;
    assert s - 3600 * h - 60 * m == U8 * (3600 * 256 * k) + r % 60;
    DivModUnique(s - 3600 * h - 60 * m, U8, 3600 * 256 * k, r % 60);
    DivModUnique(s, 60, 60 * H + m, r % 60);
  }

  /** Below `HoursLimit` the three fields give back the seconds they came from,
      and minutes and seconds are each below 60. */
  lemma FromSecsRoundTrip(s: nat)
    requires s < HoursLimit
    ensures var t := FromSecs(s);
            t.mins < 60 && t.secs < 60 && t.hours * 3600 + t.mins * 60 + t.secs == s
  {
    assert s / 3600 < U16;
    DivModUnique(s / 3600, U16, 0, s / 3600);
  }

  /** From `HoursLimit` on, the `as u16` cast drops whole multiples of 65536
      hours, so the fields no longer add up to the input. */
  lemma FromSecsTruncatesHours(s: nat)
    requires HoursLimit <= s < U32
    ensures var t := FromSecs(s);
            t.hours == s / 3600 - U16 * (s / 3600 / U16)
            && t.hours * 3600 + t.mins * 60 + t.secs < s
  {
    assert s / 3600 >= U16;
  }

  /** `Time::from_secs` exactly as written in a release build, where the `u16`
      product `3600 * hours` wraps around modulo 65536. */
  function FromSecsWrapping(s: nat): (t: Time)
    requires s < U32
    ensures t == FromSecs(s)
  {
    var hours := (s / 3600) % U16;
    var mins := ((s - 3600 * hours) / 60) % U8;
    var wrapped := (3600 * hours) % U16;
    WrappingLosesMultipleOf256(s, hours, mins, wrapped);
    Time(hours, mins, (s - wrapped - 60 * mins) % U8)
  }

  /** The wrapped product differs from the true one by a multiple of 65536, which
      the final `as u8` cast cannot see. */
  lemma WrappingLosesMultipleOf256(s: nat, hours: nat, mins: nat, wrapped: nat)
    requires hours == (s / 3600) % U16 && mins == ((s - 3600 * hours) / 60) % U8
    requires wrapped == (3600 * hours) % U16
    ensures s - wrapped - 60 * mins >= 0
    ensures (s - wrapped - 60 * mins) % U8 == (s - 3600 * hours - 60 * mins) % U8
  {
    FromSecsClosedForm(s);
    var j := (3600 * hours) / U16;
    assert 3600 * hours == U16 * j + wrapped;
    assert s >= 3600 * hours + 60 * mins by {
      assert s / 3600 >= hours;
      assert s >= 3600 * (s / 3600);
    }
    var x := s - 3600 * hours - 60 * mins;
    assert s - wrapped - 60 * mins == x + U8 * (256 * j);
    DivModUnique(x, U8, x / U8, x % U8);
    DivModUnique(x + U8 * (256 * j), U8, x / U8 + 256 * j, x % U8);
  }

  /** `Time::from_secs` exactly as written in a build with overflow checks:
      `None` is the panic of the `u16` product `3600 * hours`. */
  function FromSecsChecked(s: nat): (t: Option<Time>)
    requires s < U32
    ensures s < 68400 ==> t.Some?
    ensures t.Some? ==> t.value.hours < 19 && t.value.mins < 60 && t.value.secs < 60
  {
    var hours := (s / 3600) % U16;
    var mins := ((s - 3600 * hours) / 60) % U8;
    FromSecsClosedForm(s);
    if 3600 * hours >= U16 then None
    else Some(Time(hours, mins, (s - 3600 * hours - 60 * mins) % U8))
  }

  /** The checked build panics exactly when the hour field reaches 19, that is
      from 19 hours of uptime on; otherwise it agrees with `FromSecs`. */
  lemma CheckedPanicsFrom19Hours(s: nat)
    requires s < U32
    ensures FromSecsChecked(s).None? <==> (s / 3600) % U16 >= 19
    ensures FromSecsChecked(s).Some? ==> FromSecsChecked(s).value == FromSecs(s)
  {
    FromSecsClosedForm(s);
  }

  /** The first uptime the uptime label cannot show in a checked build. */
  lemma CheckedPanicsAt68400()
    ensures FromSecsChecked(68399).Some? && FromSecsChecked(68400).None?
    ensures FromSecs(68400) == Time(19, 0, 0)
  {
    CheckedPanicsFrom19Hours(68399);
    CheckedPanicsFrom19Hours(68400);
  }

  /** The digit character for `d`. */
  function DigitChar(d: nat): (c: char)
    requires d < 10
    ensures '0' <= c <= '9' && c as int - '0' as int == d
  {
    ['0', '1', '2', '3', '4', '5', '6', '7', '8', '9'][d]
  }

  /** Rust's `Display` for an unsigned integer: its decimal digits, no leading zero. */
  function Decimal(n: nat): (ds: string)
    ensures 1 <= |ds| && (|ds| > 1 ==> ds[0] != '0') && AllDigits(ds)
  {
    if n < 10 then [DigitChar(n)] else Decimal(n / 10) + [DigitChar(n % 10)]
  }

  predicate AllDigits(ds: string) {
    forall i :: 0 <= i < |ds| ==> '0' <= ds[i] <= '9'
  }

  /** The number a string of decimal digits denotes. */
  function DigitsValue(ds: string): nat
    requires AllDigits(ds)
  {
    if ds == [] then 0
    else 10 * DigitsValue(ds[..|ds| - 1]) + (ds[|ds| - 1] as int - '0' as int)
  }

  /** Reading back the printed digits gives the number. */
  lemma {:induction false} DecimalRoundTrip(n: nat)
    ensures DigitsValue(Decimal(n)) == n
  {
    if n >= 10 {
      var ds := Decimal(n);
      assert ds[..|ds| - 1] == Decimal(n / 10);
      DecimalRoundTrip(n / 10);
    }
  }

  /** `if x < 10 { "0" } else { "" }` followed by `x`. */
  function Padded(n: nat): string {
    (if n < 10 then "0" else "") + Decimal(n)
  }

  /** Below 100, the padded form is exactly two digits with value `n`. */
  lemma PaddedTwoDigits(n: nat)
    requires n < 100
    ensures var p := Padded(n);
            |p| == 2 && AllDigits(p) && DigitsValue(p) == n
  {
    var p := Padded(n);
    DecimalRoundTrip(n);
    if n < 10 {
      assert p == ['0', DigitChar(n)];
      assert p[..1] == ['0'];
    } else {
      assert Decimal(n) == Decimal(n / 10) + [DigitChar(n % 10)];
      assert |Decimal(n / 10)| == 1;
    }
  }

  /** `Display for Time`: `H:MM:SS`. The label is made of digits and colons
      only, and with minutes and seconds below 60 it ends in `:MM:SS` after the
      hour digits. */
  function Show(t: Time): (out: string)
    ensures forall i :: 0 <= i < |out| ==> out[i] == ':' || '0' <= out[i] <= '9'
    ensures t.mins < 60 && t.secs < 60 ==>
              && |out| == |Decimal(t.hours)| + 6
              && out[|out| - 6] == ':' && out[|out| - 3] == ':'
  {
    var h, m, sec := Decimal(t.hours), Padded(t.mins), Padded(t.secs);
    PaddedDigits(t.mins);
    PaddedDigits(t.secs);
    h + ":" + m + ":" + sec
  }

  /** A padded number is all digits, and exactly two of them below 100. */
  lemma PaddedDigits(n: nat)
    ensures AllDigits(Padded(n))
    ensures n < 100 ==> |Padded(n)| == 2
  {
    var d := Decimal(n);
    if n < 10 {
      assert Padded(n) == ['0'] + d;
    } else if n < 100 {
      assert d == Decimal(n / 10) + [DigitChar(n % 10)];
    }
  }

  /** Reads a `H:MM:SS` label back: the inverse of `Show`. */
  function ParseClock(out: string): Option<Time> {
    var n := |out|;
    if n >= 7 && out[n - 6] == ':' && out[n - 3] == ':'
       && AllDigits(out[..n - 6]) && AllDigits(out[n - 5..n - 3]) && AllDigits(out[n - 2..])
    then Some(Time(DigitsValue(out[..n - 6]), DigitsValue(out[n - 5..n - 3]), DigitsValue(out[n - 2..])))
    else None
  }

  /** With minutes and seconds below 60 (as `from_secs` makes them), the printed
      label reads back as the same hours, minutes and seconds. */
  lemma ShowRoundTrip(t: Time)
    requires t.mins < 60 && t.secs < 60
    ensures ParseClock(Show(t)) == Some(t)
  {
    var h, m, sec := Decimal(t.hours), Padded(t.mins), Padded(t.secs);
    PaddedTwoDigits(t.mins);
    PaddedTwoDigits(t.secs);
    DecimalRoundTrip(t.hours);
    var out := Show(t);
    assert out == h + ":" + m + ":" + sec;
    var n := |out|;
    assert out[..n - 6] == h;
    assert out[n - 5..n - 3] == m;
    assert out[n - 2..] == sec;
  }

  /** Below `HoursLimit`, the uptime label reads back as the uptime itself. */
  lemma ShowFromSecs(s: nat)
    requires s < HoursLimit
    ensures var t := ParseClock(Show(FromSecs(s)));
            t.Some? && 3600 * t.value.hours + 60 * t.value.mins + t.value.secs == s
  {
    FromSecsRoundTrip(s);
    ShowRoundTrip(FromSecs(s));
  }
}
