/** Bit rates in text: INT[.FRAC][K|M|G], parsed and printed in 64-bit integer arithmetic. */
module Bitrate {
  import opened Wrappers
  import opened Machine
  import opened Decimal

  // Arithmetic on this type that could leave 64 bits does not verify.
  newtype u64 = x: int | 0 <= x < 0x1_0000_0000_0000_0000

  datatype ParseError =
    | Empty | Negative | NoLeadingDigit | MissingFraction | FractionNeedsUnit
    | UnknownUnit | Overflow | TooFine | Zero

  // --- What a text denotes ---

  datatype Parts = Parts(whole: string, dotted: bool, fraction: string, suffix: string)

  function DigitRun(s: string): (n: nat)
    ensures n <= |s| && AllDigits(s[..n]) && (n < |s| ==> !IsDigit(s[n]))
  {
    if s == [] || !IsDigit(s[0]) then 0
    else
      var n := 1 + DigitRun(s[1..]);
      assert s[..n] == [s[0]] + s[1..][..n - 1];
      n
  }

  function Shape(s: string): (p: Parts)
    ensures AllDigits(p.whole) && AllDigits(p.fraction) && (!p.dotted ==> p.fraction == [])
    ensures s == p.whole + (if p.dotted then ['.'] else []) + p.fraction + p.suffix
  {
    var n := DigitRun(s);
    if n < |s| && s[n] == '.' then
      var m := DigitRun(s[n + 1..]);
      Parts(s[..n], true, s[n + 1..][..m], s[n + 1..][m..])
    else
      Parts(s[..n], false, [], s[n..])
  }

  // How many decimal places the unit shifts by. Lower-casing also maps the Kelvin sign to k.
  function UnitPlaces(suffix: string): Option<nat> {
    if suffix == [] then Some(0)
    else if suffix == "k" || suffix == "K" || suffix == "\U{212A}" then Some(3)
    else if suffix == "m" || suffix == "M" then Some(6)
    else if suffix == "g" || suffix == "G" then Some(9)
    else None
  }

  predicate WellFormed(p: Parts) {
    && p.whole != [] && (p.dotted ==> p.fraction != [])
    && UnitPlaces(p.suffix).Some? && |p.fraction| <= UnitPlaces(p.suffix).value
  }

  // whole.fraction, the fraction having `digits` places, with the point moved right.
  function Shifted(whole: nat, fraction: nat, digits: nat, places: nat): nat
    requires digits <= places
  {
    whole * Pow10(places) + fraction * Pow10(places - digits)
  }

  // Shifting the point right by the unit's places leaves a whole number.
  function Worth(p: Parts): nat
    requires AllDigits(p.whole) && AllDigits(p.fraction) && WellFormed(p)
  {
    Shifted(Value(p.whole), Value(p.fraction), |p.fraction|, UnitPlaces(p.suffix).value)
  }

  function Parse(s: string): Option<nat> {
    var p := Shape(s);
    if WellFormed(p) && 0 < Worth(p) < TWO_64 then Some(Worth(p)) else None
  }

  lemma {:induction false} PowersAdd(a: nat, b: nat)
    ensures Pow10(a + b) == Pow10(a) * Pow10(b)
    decreases a
  {
    if a > 0 {
      PowersAdd(a - 1, b);
      assert Pow10(a + b) == 10 * Pow10(a - 1 + b);
    }
  }

  lemma ShiftedIsExact(whole: nat, fraction: nat, digits: nat, places: nat)
    requires digits <= places
    ensures Shifted(whole, fraction, digits, places) * Pow10(digits) == (whole * Pow10(digits) + fraction) * Pow10(places)
  {
    PowersAdd(places - digits, digits);
    ScaleOut(whole, fraction, Pow10(places), Pow10(places - digits), Pow10(digits));
  }

  /** What an accepted text yields is exactly its decimal value times the unit. */
  lemma ParsedValueIsExact(s: string)
    requires Parse(s).Some?
    ensures var p := Shape(s);
            && UnitPlaces(p.suffix).Some? && AllDigits(p.whole + p.fraction)
            && Parse(s).value * Pow10(|p.fraction|) == Value(p.whole + p.fraction) * Pow10(UnitPlaces(p.suffix).value)
            && 0 < Parse(s).value < TWO_64
  {
    var p := Shape(s);
    ValueOfConcat(p.whole, p.fraction);
    ShiftedIsExact(Value(p.whole), Value(p.fraction), |p.fraction|, UnitPlaces(p.suffix).value);
  }

  lemma ScaleOut(whole: nat, fraction: nat, unit: nat, rest: nat, scale: nat)
    requires unit == rest * scale
    ensures (whole * unit + fraction * rest) * scale == (whole * scale + fraction) * unit
  {
    calc {
      (whole * unit + fraction * rest) * scale;
      whole * unit * scale + fraction * rest * scale;
      { assert fraction * rest * scale == fraction * unit; }
      whole * unit * scale + fraction * unit;
      { assert whole * unit * scale == whole * scale * unit; }
      (whole * scale + fraction) * unit;
    }
  }

  // A text's parts are the only ones that spell it.
  lemma {:induction false} RunStops(digits: string, rest: string)
    requires AllDigits(digits) && (rest == [] || !IsDigit(rest[0]))
    ensures DigitRun(digits + rest) == |digits|
    decreases |digits|
  {
    if digits == [] {
      assert digits + rest == rest;
    } else {
      RunStops(digits[1..], rest);
      assert (digits + rest)[1..] == digits[1..] + rest;
    }
  }

  lemma PlainShape(whole: string, suffix: string)
    requires AllDigits(whole) && UnitPlaces(suffix).Some?
    ensures Shape(whole + suffix) == Parts(whole, false, [], suffix)
  {
    RunStops(whole, suffix);
    assert (whole + suffix)[..|whole|] == whole && (whole + suffix)[|whole|..] == suffix;
  }

  lemma DottedShape(whole: string, fraction: string, suffix: string)
    requires AllDigits(whole) && AllDigits(fraction) && UnitPlaces(suffix).Some?
    ensures Shape(whole + ['.'] + fraction + suffix) == Parts(whole, true, fraction, suffix)
  {
    var s := whole + ['.'] + fraction + suffix;
    assert s == whole + (['.'] + fraction + suffix);
    RunStops(whole, ['.'] + fraction + suffix);
    assert s[..|whole|] == whole && s[|whole| + 1..] == fraction + suffix;
    assert s[|whole|] == '.';
    RunStops(fraction, suffix);
    assert (fraction + suffix)[..|fraction|] == fraction && (fraction + suffix)[|fraction|..] == suffix;
  }

  // --- Printing ---

  function Div(a: nat, b: nat): nat
    requires b > 0
  { a / b }

  function Mod(a: nat, b: nat): nat
    requires b > 0
  { a % b }

  function Wholes(v: nat, places: nat): nat { Div(v, Pow10(places)) }

  // How many tenths of the unit are left over.
  function Tenths(v: nat, places: nat): nat
    requires places > 0
  {
    Div(Mod(v, Pow10(places)), Pow10(places - 1))
  }

  // The unit's rendering, when the value needs at most one decimal digit of it.
  function InUnit(v: nat, places: nat, suffix: string): Option<string>
    requires places > 0
  {
    var unit, tenth := Pow10(places), Pow10(places - 1);
    if v % unit == 0 then Some(Print(Wholes(v, places)) + suffix)
    else if v >= unit && v % tenth == 0 then Some(Print(Wholes(v, places)) + ['.'] + Print(Tenths(v, places)) + suffix)
    else None
  }

  function ToText(v: nat): string {
    if v == 0 then "0"
    else if InUnit(v, 9, "G").Some? then InUnit(v, 9, "G").value
    else if InUnit(v, 6, "M").Some? then InUnit(v, 6, "M").value
    else if InUnit(v, 3, "K").Some? then InUnit(v, 3, "K").value
    else Print(v)
  }

  lemma TenthsAddUp(v: nat, t: nat)
    requires t > 0 && v % t == 0
    ensures v == (v / (10 * t)) * (10 * t) + ((v % (10 * t)) / t) * t
    ensures (v % (10 * t)) / t < 10
  {
    var u := 10 * t;
    var q, w := v / u, v / t;
    assert v == t * w && v == u * q + v % u;
    var k := w - 10 * q;
    assert v % u == t * k;
    assert (t * k) / t == k by { DivCancels(t, k); }
    assert t * k < t * 10;
  }

  lemma DivCancels(t: nat, k: int)
    requires t > 0 && t * k >= 0
    ensures k >= 0 && (t * k) / t == k
  {}

  lemma PartsReadBack(s: string, p: Parts, v: nat)
    requires Shape(s) == p && WellFormed(p) && Worth(p) == v && 0 < v < TWO_64
    ensures Parse(s) == Some(v)
  {}

  lemma PlainReadsBack(n: nat, places: nat, suffix: string)
    requires UnitPlaces(suffix) == Some(places) && 0 < Shifted(n, 0, 0, places) < TWO_64
    ensures Parse(Print(n) + suffix) == Some(Shifted(n, 0, 0, places))
  {
    PrintReadsBack(n);
    PlainShape(Print(n), suffix);
    PartsReadBack(Print(n) + suffix, Parts(Print(n), false, [], suffix), Shifted(n, 0, 0, places));
  }

  lemma OneDigit(n: nat)
    requires n < 10
    ensures |Print(n)| == 1
  {}

  lemma DottedReadsBack(n: nat, d: nat, places: nat, suffix: string)
    requires d < 10 && places > 0 && UnitPlaces(suffix) == Some(places) && 0 < Shifted(n, d, 1, places) < TWO_64
    ensures Parse(Print(n) + ['.'] + Print(d) + suffix) == Some(Shifted(n, d, 1, places))
  {
    PrintReadsBack(n);
    PrintReadsBack(d);
    OneDigit(d);
    DottedShape(Print(n), Print(d), suffix);
    PartsReadBack(Print(n) + ['.'] + Print(d) + suffix, Parts(Print(n), true, Print(d), suffix), Shifted(n, d, 1, places));
  }

  lemma WholeIsShifted(v: nat, places: nat)
    requires v % Pow10(places) == 0
    ensures Shifted(Wholes(v, places), 0, 0, places) == v
  {}

  lemma TenthsAreShifted(v: nat, places: nat)
    requires places > 0 && v % Pow10(places - 1) == 0
    ensures Tenths(v, places) < 10
    ensures Shifted(Wholes(v, places), Tenths(v, places), 1, places) == v
  {
    TenthsAddUp(v, Pow10(places - 1));
  }

  lemma InUnitReadsBack(v: nat, places: nat, suffix: string)
    requires 0 < v < TWO_64 && places > 0 && UnitPlaces(suffix) == Some(places) && InUnit(v, places, suffix).Some?
    ensures Parse(InUnit(v, places, suffix).value) == Some(v)
  {
    if v % Pow10(places) == 0 {
      WholeIsShifted(v, places);
      PlainReadsBack(Wholes(v, places), places, suffix);
    } else {
      TenthsAreShifted(v, places);
      DottedReadsBack(Wholes(v, places), Tenths(v, places), places, suffix);
    }
  }

  /** Parsing the printed form of any value above zero gives the value back. */
  lemma TextReadsBack(v: nat)
    requires 0 < v < TWO_64
    ensures Parse(ToText(v)) == Some(v)
  {
    if InUnit(v, 9, "G").Some? {
      InUnitReadsBack(v, 9, "G");
    } else if InUnit(v, 6, "M").Some? {
      InUnitReadsBack(v, 6, "M");
    } else if InUnit(v, 3, "K").Some? {
      InUnitReadsBack(v, 3, "K");
    } else {
      assert Print(v) + [] == Print(v);
      PlainReadsBack(v, 0, []);
    }
  }

  // --- Suffixes ---

  lemma SuffixGrows(t: string, c: char)
    requires !IsDigit(c) && c != '.'
    ensures Shape(t + [c]) == Shape(t).(suffix := Shape(t).suffix + [c])
  {
    var n := DigitRun(t);
    RunOfLonger(t, c);
    assert (t + [c])[..n] == t[..n];
    if n < |t| && t[n] == '.' {
      assert (t + [c])[n + 1..] == t[n + 1..] + [c];
      RunOfLonger(t[n + 1..], c);
    }
  }

  lemma RunOfLonger(t: string, c: char)
    requires !IsDigit(c)
    ensures DigitRun(t + [c]) == DigitRun(t)
  {
    var n := DigitRun(t);
    assert t + [c] == t[..n] + (t[n..] + [c]);
    RunStops(t[..n], t[n..] + [c]);
  }

  // The same unit, in either case; the Kelvin sign counts as k.
  predicate SameUnit(a: char, b: char) {
    || (a in "kK\U{212A}" && b in "kK\U{212A}")
    || (a in "mM" && b in "mM")
    || (a in "gG" && b in "gG")
  }

  lemma UnitsAreOneCharacter(t: string, a: char, b: char)
    requires SameUnit(a, b)
    ensures UnitPlaces(t + [a]) == UnitPlaces(t + [b])
  {
    if t != [] {
      assert |t + [a]| > 1 && |t + [b]| > 1;
    } else {
      assert t + [a] == [a] && t + [b] == [b];
    }
  }

  lemma SuffixIsItsUnit(s: string, t: string)
    requires Shape(t) == Shape(s).(suffix := Shape(t).suffix) && UnitPlaces(Shape(s).suffix) == UnitPlaces(Shape(t).suffix)
    ensures Parse(s) == Parse(t)
  {
    var p, q := Shape(s), Shape(t);
    assert WellFormed(p) <==> WellFormed(q);
    assert WellFormed(p) ==> Worth(p) == Worth(q);
  }

  /** Whatever stands before it, an upper-case suffix parses like its lower-case one, and the Kelvin sign
      like k. */
  lemma CaseDoesNotMatter(t: string, a: char, b: char)
    requires SameUnit(a, b)
    ensures Parse(t + [a]) == Parse(t + [b])
  {
    SuffixGrows(t, a);
    SuffixGrows(t, b);
    UnitsAreOneCharacter(Shape(t).suffix, a, b);
    SuffixIsItsUnit(t + [a], t + [b]);
  }

  // What a suffix multiplies by; zero for none of the units.
  function Factor(suffix: string): nat {
    match |suffix|
    case 0 => 1
    case 1 => if suffix[0] in "kK\U{212A}" then 1_000 else if suffix[0] in "mM" then 1_000_000 else if suffix[0] in "gG" then 1_000_000_000 else 0
    case _ => 0
  }

  lemma FactorLaw(suffix: string)
    ensures Factor(suffix) == match UnitPlaces(suffix) case Some(places) => Pow10(places) case None => 0
  {
    assert Pow10(3) == 1_000 && Pow10(6) == 1_000_000 && Pow10(9) == 1_000_000_000;
    if |suffix| == 1 {
      assert suffix == [suffix[0]];
    }
  }

  /** A whole number with a suffix: accepted exactly when the suffix is a unit and the product fits. */
  lemma WholeTexts(whole: string, suffix: string)
    requires whole != [] && AllDigits(whole) && (suffix == [] || !(IsDigit(suffix[0]) || suffix[0] == '.'))
    ensures var v := Value(whole) * Factor(suffix); Parse(whole + suffix) == if 0 < v < TWO_64 then Some(v) else None
  {
    WholeShape(whole, suffix);
    FactorLaw(suffix);
    var p := Parts(whole, false, [], suffix);
    if UnitPlaces(suffix).Some? {
      WholeWorth(p);
      assert WellFormed(p);
    } else {
      assert Factor(suffix) == 0;
    }
  }

  lemma WholeWorth(p: Parts)
    requires p.whole != [] && AllDigits(p.whole) && p.fraction == [] && !p.dotted && UnitPlaces(p.suffix).Some?
    ensures Worth(p) == Value(p.whole) * Pow10(UnitPlaces(p.suffix).value)
  {
    assert Value([]) == 0;
  }

  lemma WholeShape(whole: string, suffix: string)
    requires AllDigits(whole) && (suffix == [] || !(IsDigit(suffix[0]) || suffix[0] == '.'))
    ensures Shape(whole + suffix) == Parts(whole, false, [], suffix)
  {
    RunStops(whole, suffix);
    assert (whole + suffix)[..|whole|] == whole && (whole + suffix)[|whole|..] == suffix;
  }

  /** A fraction without a unit is refused, however it reads. */
  lemma BareFractionsAreRefused(whole: string, fraction: string)
    requires AllDigits(whole) && AllDigits(fraction)
    ensures Parse(whole + ['.'] + fraction) == None
  {
    DottedShape(whole, fraction, []);
    assert whole + ['.'] + fraction + [] == whole + ['.'] + fraction;
  }

  // --- The printed form ---

  lemma Literals()
    ensures Pow10(9) == 1_000_000_000 && Pow10(8) == 100_000_000 && Pow10(6) == 1_000_000
    ensures Pow10(5) == 100_000 && Pow10(3) == 1_000 && Pow10(2) == 100
  {}

  lemma InUnitShape(v: nat, places: nat, suffix: string)
    requires places > 0 && UnitPlaces(suffix) == Some(places) && InUnit(v, places, suffix).Some?
    ensures var p := Shape(InUnit(v, places, suffix).value);
            && p.whole == Print(v / Pow10(places)) && p.suffix == suffix
            && |p.fraction| == (if v % Pow10(places) == 0 then 0 else 1) && p.dotted == (v % Pow10(places) != 0)
  {
    PrintReadsBack(Wholes(v, places));
    if v % Pow10(places) == 0 {
      PlainShape(Print(Wholes(v, places)), suffix);
    } else {
      TenthsAreShifted(v, places);
      PrintReadsBack(Tenths(v, places));
      OneDigit(Tenths(v, places));
      DottedShape(Print(Wholes(v, places)), Print(Tenths(v, places)), suffix);
    }
  }

  // A unit serves exactly a value of at least one of it and at most one decimal digit.
  lemma InUnitServes(v: nat, places: nat, suffix: string)
    requires v > 0 && places > 0
    ensures InUnit(v, places, suffix).Some? <==> v >= Pow10(places) && v % Pow10(places - 1) == 0
  {
    var tenth := Pow10(places - 1);
    if v % Pow10(places) == 0 {
      MultipleOfTen(v, tenth);
    }
  }

  lemma MultipleOfTen(v: nat, t: nat)
    requires v > 0 && t > 0 && v % (10 * t) == 0
    ensures v % t == 0 && v >= 10 * t
  {
    var q := v / (10 * t);
    assert v == (10 * q) * t by { Regroup(v, t, q); }
    ProductDivides(10 * q, t);
    TimesAtLeast(10 * t, q);
  }

  lemma Regroup(v: nat, t: nat, q: nat)
    requires v == (10 * t) * q
    ensures v == (10 * q) * t
  {}

  lemma TimesAtLeast(t: nat, q: nat)
    requires t * q > 0
    ensures t * q >= t
  {}

  // The printed form uses this unit, of that many places.
  predicate PrintedIn(v: nat, suffix: string, places: nat) {
    var p, rest := Shape(ToText(v)), Mod(v, Pow10(places));
    && p.suffix == suffix && p.whole == Print(Wholes(v, places))
    && p.dotted == (rest != 0) && |p.fraction| == (if rest == 0 then 0 else 1)
  }

  /** A value is printed in the largest unit of which it has at least one and needs at most one decimal
      digit, with that digit exactly when the unit does not divide it; without such a unit in bare digits. */
  lemma TextUsesTheLargestUnit(v: nat)
    requires v > 0
    ensures if v >= 1_000_000_000 && v % 100_000_000 == 0 then PrintedIn(v, "G", 9)
            else if v >= 1_000_000 && v % 100_000 == 0 then PrintedIn(v, "M", 6)
            else if v >= 1_000 && v % 100 == 0 then PrintedIn(v, "K", 3)
            else PrintedIn(v, "", 0)
  {
    Literals();
    InUnitServes(v, 9, "G");
    InUnitServes(v, 6, "M");
    InUnitServes(v, 3, "K");
    if InUnit(v, 9, "G").Some? {
      InUnitShape(v, 9, "G");
    } else if InUnit(v, 6, "M").Some? {
      InUnitShape(v, 6, "M");
    } else if InUnit(v, 3, "K").Some? {
      InUnitShape(v, 3, "K");
    } else {
      PrintReadsBack(v);
      PlainShape(Print(v), []);
      assert Print(v) + [] == Print(v);
    }
  }

  // --- The parser as it is written ---

  const MAX_U64: u64 := 0xFFFF_FFFF_FFFF_FFFF

  method ScanDigits(s: string) returns (i: nat)
    ensures i == DigitRun(s)
  {
    i := 0;
    while i < |s| && IsDigit(s[i])
      invariant i <= |s| && i + DigitRun(s[i..]) == DigitRun(s)
    {
      assert s[i..][1..] == s[i + 1..];
      i := i + 1;
    }
  }

  lemma SmallPowers(k: nat)
    requires k <= 9
    ensures Pow10(k) <= 1_000_000_000
  {
    PowersAdd(k, 9 - k);
    assert Pow10(9) == 1_000_000_000;
    assert Pow10(k) <= Pow10(k) * Pow10(9 - k);
  }

  method Power(n: nat) returns (pow: u64)
    requires n <= 9
    ensures pow as nat == Pow10(n)
  {
    pow := 1;
    for i := 0 to n
      invariant pow as nat == Pow10(i)
    {
      SmallPowers(i);
      pow := pow * 10;
    }
  }

  // The unit is a whole number of fraction steps exactly when it has that many places.
  lemma StepsDivideUnit(digits: nat, places: nat)
    ensures Pow10(places) % Pow10(digits) == 0 <==> digits <= places
    ensures digits <= places ==> Pow10(places) / Pow10(digits) == Pow10(places - digits)
  {
    if digits <= places {
      PowersAdd(places - digits, digits);
      ProductDivides(Pow10(places - digits), Pow10(digits));
    } else {
      PowersAdd(digits - places - 1, places);
      SmallIsNotDivided(Pow10(places), Pow10(digits), Pow10(digits - places - 1));
    }
  }

  lemma ProductDivides(a: nat, b: nat)
    requires b > 0
    ensures (a * b) % b == 0 && (a * b) / b == a
  {
    assert a * b == b * a;
    DivCancels(b, a);
    assert b * a == b * ((b * a) / b) + (b * a) % b;
  }

  lemma SmallIsNotDivided(small: nat, big: nat, factor: nat)
    requires small > 0 && factor > 0 && big == 10 * (factor * small)
    ensures small % big != 0
  {
    assert factor * small >= small;
  }

  lemma OverflowTest(n: u64, mult: u64)
    requires mult > 0
    ensures n > MAX_U64 / mult <==> n as nat * mult as nat >= TWO_64
  {
    var q := MAX_U64 as nat / mult as nat;
    assert MAX_U64 as nat < (q + 1) * mult as nat && q * mult as nat <= MAX_U64 as nat;
    if n as nat > q {
      assert n as nat * mult as nat >= (q + 1) * mult as nat;
    } else {
      assert n as nat * mult as nat <= q * mult as nat;
    }
  }

  lemma WholeIsPart(whole: nat, fraction: nat, digits: nat, places: nat)
    requires digits <= places
    ensures whole <= whole * Pow10(places) <= Shifted(whole, fraction, digits, places)
  {}

  method ScaleWhole(whole: string, mult: u64, ghost places: nat) returns (r: Result<u64, ParseError>)
    requires whole != [] && AllDigits(whole) && mult as nat == Pow10(places)
    ensures r.Ok? <==> Value(whole) * Pow10(places) < TWO_64
    ensures r.Ok? ==> r.value as nat == Value(whole) * Pow10(places)
  {
    WholeIsPart(Value(whole), 0, 0, places);
    var parsed := ParseUint64(whole);
    if parsed.None? {
      return Err(Overflow);
    }
    var intVal := parsed.value as u64;
    OverflowTest(intVal, mult);
    if mult > 1 && intVal > MAX_U64 / mult {
      return Err(Overflow);
    }
    return Ok(intVal * mult);
  }

  // The product stays below the unit.
  lemma FractionIsSmall(fraction: nat, digits: nat, places: nat)
    requires digits <= places <= 9 && fraction < Pow10(digits)
    ensures fraction * Pow10(places - digits) < Pow10(places) <= 1_000_000_000
  {
    PowersAdd(digits, places - digits);
    SmallPowers(places);
    TimesKeepsOrder(fraction, Pow10(digits), Pow10(places - digits));
  }

  lemma TimesKeepsOrder(a: nat, b: nat, c: nat)
    requires a < b && c > 0
    ensures a * c < b * c
  {}

  // The same for the machine's own division.
  lemma StepOfUnit(mult: u64, pow: u64, digits: nat, places: nat)
    requires mult as nat == Pow10(places) && pow as nat == Pow10(digits)
    ensures pow != 0 && (mult % pow == 0 <==> digits <= places)
    ensures digits <= places ==> (mult / pow) as nat == Pow10(places - digits)
  {
    StepsDivideUnit(digits, places);
  }

  method ScaleFraction(fraction: string, mult: u64, ghost places: nat) returns (r: Result<u64, ParseError>)
    requires fraction != [] && AllDigits(fraction) && places <= 9 && mult as nat == Pow10(places)
    ensures r.Ok? <==> |fraction| <= places
    ensures r.Ok? ==> r.value as nat == Value(fraction) * Pow10(places - |fraction|)
  {
    if |fraction| > 9 {
      return Err(TooFine);
    }
    var pow := Power(|fraction|);
    StepOfUnit(mult, pow, |fraction|, places);
    if mult % pow != 0 {
      return Err(TooFine);
    }
    ValueIsBounded(fraction);
    SmallPowers(|fraction|);
    FractionIsSmall(Value(fraction), |fraction|, places);
    var fracVal := ParseUint64(fraction).value as u64;
    var step := mult / pow;
    return Ok(fracVal * step);
  }

  method Assemble(whole: string, dotted: bool, fraction: string, mult: u64, ghost places: nat)
    returns (r: Result<u64, ParseError>)
    requires AllDigits(whole) && AllDigits(fraction) && places <= 9 && mult as nat == Pow10(places)
    requires whole != [] && (dotted <==> fraction != [])
    ensures r.Ok? <==> |fraction| <= places && 0 < Shifted(Value(whole), Value(fraction), |fraction|, places) < TWO_64
    ensures r.Ok? ==> r.value as nat == Shifted(Value(whole), Value(fraction), |fraction|, places)
  {
    r := ScaleWhole(whole, mult, places);
    if |fraction| <= places {
      WholeIsPart(Value(whole), Value(fraction), |fraction|, places);
    }
    if r.Err? {
      return;
    }
    var total := r.value;
    if dotted {
      var f := ScaleFraction(fraction, mult, places);
      if f.Err? {
        return f;
      }
      if total > MAX_U64 - f.value {
        return Err(Overflow);
      }
      total := total + f.value;
    }
    if total == 0 {
      return Err(Zero);
    }
    return Ok(total);
  }

  // The scanning half: the parts of the text, or the first complaint about them.
  method SplitText(s: string) returns (r: Result<Parts, ParseError>)
    ensures r.Ok? <==> Shape(s).whole != [] && (Shape(s).dotted ==> Shape(s).fraction != [])
    ensures r.Ok? ==> r.value == Shape(s)
  {
    if s == [] {
      return Err(Empty);
    }
    if s[0] == '-' {
      return Err(Negative);
    }
    var i := ScanDigits(s);
    if i == 0 {
      return Err(NoLeadingDigit);
    }
    if i == |s| || s[i] != '.' {
      return Ok(Parts(s[..i], false, [], s[i..]));
    }
    var rest := s[i + 1..];
    var j := ScanDigits(rest);
    if j == 0 {
      return Err(MissingFraction);
    }
    return Ok(Parts(s[..i], true, rest[..j], rest[j..]));
  }

  /** No step of the parser leaves 64 bits, and what it accepts and returns is the meaning of
      the text. */
  method ParseBitrate(s: string) returns (r: Result<u64, ParseError>)
    ensures r.Ok? <==> Parse(s).Some?
    ensures r.Ok? ==> r.value as nat == Parse(s).value
  {
    var split := SplitText(s);
    if split.Err? {
      return Err(split.error);
    }
    var p := split.value;
    var unit := UnitPlaces(p.suffix);
    if unit.None? {
      return Err(UnknownUnit);
    }
    if unit.value == 0 && p.dotted {
      return Err(FractionNeedsUnit);
    }
    var mult := Power(unit.value);
    r := Assemble(p.whole, p.dotted, p.fraction, mult, unit.value);
  }
}
