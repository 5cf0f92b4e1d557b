/** Database-level catalog entries: the retention `Duration`, the timestamp
    `Precision`, their permissive text parsers, and the default options a new
    database receives. */
module DatabaseSchemas {
  import opened Wrappers

  /** Rust `u64`. */
  newtype u64 = x: int | 0 <= x < 0x1_0000_0000_0000_0000

  const U64Bound: nat := 0x1_0000_0000_0000_0000

  // ---------------------------------------------------------------- decimal text

  predicate IsDigit(c: char)
  {
    '0' <= c <= '9'
  }

  predicate AllDigits(s: string)
  {
    forall i :: 0 <= i < |s| ==> IsDigit(s[i])
  }

  function DigitsValue(s: string): nat
    requires AllDigits(s)
  {
    if |s| == 0 then 0 else DigitsValue(s[..|s| - 1]) * 10 + ((s[|s| - 1] as int) - ('0' as int))
  }

  /** The text after an optional leading `+`. */
  function UnsignedPart(s: string): (d: string)
    ensures |s| > 0 && s[0] == '+' ==> d == s[1..]
    ensures (|s| == 0 || s[0] != '+') ==> d == s
  {
    if |s| > 0 && s[0] == '+' then s[1..] else s
  }

  /** `str::parse::<u64>`: an optional leading `+` followed by at least one
      decimal digit and nothing else, whose value fits in 64 bits. */
  function ParseU64(s: string): (r: Option<u64>)
    ensures var d := UnsignedPart(s);
            r.Some? ==> 0 < |d| && AllDigits(d) && r.value as int == DigitsValue(d)
    ensures var d := UnsignedPart(s);
            0 < |d| && AllDigits(d) && DigitsValue(d) < U64Bound ==> r == Some(DigitsValue(d) as u64)
    ensures var d := UnsignedPart(s);
            0 < |d| && AllDigits(d) && DigitsValue(d) >= U64Bound ==> r.None?
  {
    if |s| == 0 then
      None
    else
      var digits := if s[0] == '+' then s[1..] else s;
      if |digits| == 0 || !AllDigits(digits) then None
      else if DigitsValue(digits) < U64Bound then Some(DigitsValue(digits) as u64)
      else None
  }

  function DigitChar(d: nat): char
    requires d < 10
  {
    (('0' as int) + d) as char
  }

  /** The canonical decimal rendering of a natural number, without sign or
      leading zeros. */
  function Decimal(n: nat): string
  {
    if n < 10 then [DigitChar(n)] else Decimal(n / 10) + [DigitChar(n % 10)]
  }

  lemma {:induction false} DecimalDigits(n: nat)
    ensures |Decimal(n)| > 0 && AllDigits(Decimal(n)) && DigitsValue(Decimal(n)) == n
  {
    if n >= 10 {
      DecimalDigits(n / 10);
      var s := Decimal(n);
      assert s[..|s| - 1] == Decimal(n / 10);
    }
  }

  /** Decimal text parses back to the number it renders. */
  lemma ParseDecimal(n: u64)
    ensures ParseU64(Decimal(n as nat)) == Some(n)
  {
    DecimalDigits(n as nat);
  }

  // ---------------------------------------------------------------- case mapping

  /** Upper-case mapping of one character, reduced to what the precision and
      duration parsers can observe. The only characters whose upper-case
      form is exactly one of `D`, `H`, `M`, `N`, `S`, `U` are those letters,
      their lower-case forms, and LATIN SMALL LETTER LONG S (U+017F), which
      becomes `S`; so ASCII lower-case letters are raised, U+017F becomes
      `S`, and every other character is left unchanged. `str::to_uppercase`
      maps more characters than this, some onto other ASCII letters (U+0131
      becomes `I`) and some onto several characters (`ß` becomes `SS`), but
      none of those mappings can make a text read "MS", "US" or "NS" or a
      single unit letter. */
  function UpperChar(c: char): char
  {
    if 'a' <= c <= 'z' then ((c as int) - 32) as char
    else if c == 'ſ' then 'S'
    else c
  }

  /** `str::to_uppercase` under the reduced mapping, which keeps lengths. */
  function ToUppercase(s: string): (u: string)
    ensures |u| == |s|
  {
    seq(|s|, i requires 0 <= i < |s| => UpperChar(s[i]))
  }

  // ---------------------------------------------------------------- precision

  datatype Precision = MS | US | NS

  /** `Display for Precision`: the canonical upper-case form. */
  function PrecisionText(p: Precision): (text: string)
    ensures |text| == 2 && text[1] == 'S'
    ensures ToUppercase(text) == text
  {
    match p
    case MS => "MS"
    case US => "US"
    case NS => "NS"
  }

  /** `Precision::new`: accepts exactly the texts whose upper-case form is the
      canonical form of a precision. */
  function PrecisionNew(text: string): (r: Option<Precision>)
    ensures forall p :: r == Some(p) <==> ToUppercase(text) == PrecisionText(p)
  {
    var upper := ToUppercase(text);
    if upper == "MS" then Some(MS)
    else if upper == "US" then Some(US)
    else if upper == "NS" then Some(NS)
    else None
  }

  /** Writing a precision and reading it back gives the same precision. */
  lemma PrecisionRoundTrip(p: Precision)
    ensures PrecisionNew(PrecisionText(p)) == Some(p)
  {
    assert ToUppercase(PrecisionText(p)) == PrecisionText(p);
  }

  /** Case does not matter on input. */
  lemma PrecisionCaseInsensitive()
    ensures PrecisionNew("ms") == Some(MS) && PrecisionNew("Us") == Some(US) && PrecisionNew("nS") == Some(NS)
    ensures PrecisionNew("") == None && PrecisionNew("MSX") == None && PrecisionNew("s") == None
  {
    assert ToUppercase("ms") == "MS";
    assert ToUppercase("Us") == "US";
    assert ToUppercase("nS") == "NS";
  }

  // ---------------------------------------------------------------- duration

  datatype DurationUnit = Minutes | Hour | Day

  datatype Duration = Duration(timeNum: u64, unit: DurationUnit)

  /** The unit named by the last character of a duration text. */
  function UnitOf(c: char): Option<DurationUnit>
  {
    match UpperChar(c)
    case 'D' => Some(Day)
    case 'H' => Some(Hour)
    case 'M' => Some(Minutes)
    case _ => None
  }

  /** `Duration::new` cuts off the last byte of its text, which is a
      character boundary only when that last character is ASCII. */
  predicate LastCharIsAscii(text: string)
  {
    |text| == 0 || (text[|text| - 1] as int) < 0x80
  }

  /** `Duration::new`: a bare number is a number of days; otherwise the last
      character names the unit and the rest must be a number. */
  function DurationNew(text: string): (r: Option<Duration>)
    requires LastCharIsAscii(text)
    ensures r.Some? ==> 0 < |text|
    ensures r.Some? && IsDigit(text[|text| - 1]) ==>
              r.value.unit == Day && ParseU64(text) == Some(r.value.timeNum)
    ensures r.Some? && !IsDigit(text[|text| - 1]) ==>
              UnitOf(text[|text| - 1]) == Some(r.value.unit) && ParseU64(text[..|text| - 1]) == Some(r.value.timeNum)
    ensures ParseU64(text).Some? ==> r == Some(Duration(ParseU64(text).value, Day))
    ensures 0 < |text| && !IsDigit(text[|text| - 1]) ==>
              (r.Some? <==> ParseU64(text[..|text| - 1]).Some? && UnitOf(text[|text| - 1]).Some?)
  {
    if |text| == 0 then
      None
    else
      match ParseU64(text)
      case Some(v) => Some(Duration(v, Day))
      case None =>
        match ParseU64(text[..|text| - 1])
        case None => None
        case Some(n) =>
          match UnitOf(text[|text| - 1])
          case None => None
          case Some(u) => Some(Duration(n, u))
  }

  function UnitLetter(u: DurationUnit, upper: bool): char
  {
    match u
    case Day => if upper then 'D' else 'd'
    case Hour => if upper then 'H' else 'h'
    case Minutes => if upper then 'M' else 'm'
  }

  /** The textual forms a duration is written in: its number followed by a
      unit letter in either case, or, for days, the bare number. Each parses
      back to the duration it writes. */
  lemma {:induction false} DurationTextRoundTrip(d: Duration, upper: bool)
    ensures DurationNew(Decimal(d.timeNum as nat) + [UnitLetter(d.unit, upper)]) == Some(d)
    ensures d.unit == Day ==> DurationNew(Decimal(d.timeNum as nat)) == Some(d)
  {
    var digits := Decimal(d.timeNum as nat);
    ParseDecimal(d.timeNum);
    DecimalDigits(d.timeNum as nat);
    var text := digits + [UnitLetter(d.unit, upper)];
    assert text[..|text| - 1] == digits;
    assert !IsDigit(text[|text| - 1]);
    assert text[0] == digits[0];
  }

  lemma DurationExamples()
    ensures DurationNew("") == None
    ensures DurationNew("7x") == None
    ensures DurationNew("d") == None
    ensures DurationNew("-5d") == None
    ensures DurationNew("7") == Some(Duration(7, Day))
    ensures DurationNew("3h") == Some(Duration(3, Hour))
    ensures DurationNew("10D") == Some(Duration(10, Day))
    ensures DurationNew("+5m") == Some(Duration(5, Minutes))
  {
    assert "7x"[..1] == "7";
    assert "d"[..0] == "";
    assert "-5d"[..2] == "-5";
    assert "3h"[..1] == "3";
    assert "10D"[..2] == "10";
    assert "10"[..1] == "1";
    assert "+5m"[..2] == "+5";
    assert "+5m"[1..] == "5m";
    assert "+5"[1..] == "5";
  }

  // ---------------------------------------------------------------- options

  datatype DatabaseOptions = DatabaseOptions(
    ttl: Duration,
    shardNum: u64,
    vnodeDuration: Duration,
    replica: u64,
    precision: Precision)

  /** `Default for DatabaseOptions`: keep data and cover each vnode for 365
      days, one shard, one replica, nanosecond timestamps. */
  function DefaultOptions(): (o: DatabaseOptions)
    ensures DurationNew("365") == Some(o.ttl) && DurationNew("365d") == Some(o.vnodeDuration)
    ensures o.shardNum == 1 && o.replica == 1
    ensures PrecisionNew("ns") == Some(o.precision)
  {
    DurationTextRoundTrip(Duration(365, Day), false);
    assert Decimal(365) == "365" && "365" + [UnitLetter(Day, false)] == "365d";
    assert ToUppercase("ns") == "NS";
    DatabaseOptions(Duration(365, Day), 1, Duration(365, Day), 1, NS)
  }

  datatype DatabaseSchema = DatabaseSchema(name: string, config: DatabaseOptions)

  /** `DatabaseSchema::new`: a named database with the default options. */
  function NewDatabaseSchema(name: string): (s: DatabaseSchema)
    ensures s.name == name && s.config == DefaultOptions()
  {
    DatabaseSchema(name, DefaultOptions())
  }
}
