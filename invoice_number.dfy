/**
 * The default invoice number, `INV-YYYYMMDD-NNN`: the year as printed, the
 * month and the day of month padded to two digits, and a random serial
 * 0-999 padded to three.  The clock and `Math.random()` are parameters.
 */
module InvoiceNumber {
  import opened Wrappers
  import opened JsBuiltins

  /** What the formatter reads from `new Date()`: `getFullYear()`,
      `getMonth()` (0 for January) and `getDate()`. */
  datatype LocalDate = LocalDate(fullYear: int, monthIndex: int, dayOfMonth: int)

  predicate ValidLocalDate(d: LocalDate)
  {
    0 <= d.monthIndex <= 11 && 1 <= d.dayOfMonth <= 31
  }

  /** `Math.floor(random * 1000)` for a `Math.random()` value in [0, 1). */
  function RandomSerial(random: real): (n: nat)
    requires 0.0 <= random < 1.0
    ensures n < 1000
  {
    (random * 1000.0).Floor
  }

  function IntPow10(k: nat): (p: nat)
    ensures p >= 1
  {
    if k == 0 then 1 else 10 * IntPow10(k - 1)
  }

  /** A number below 10^k has at most k digits. */
  lemma {:induction false} NatToStringLength(n: nat, k: nat)
    requires k >= 1 && n < IntPow10(k)
    ensures |NatToString(n)| <= k
  {
    if n >= 10 {
      NatToStringLength(n / 10, k - 1);
    }
  }

  /** `String(n).padStart(width, '0')` for a number with at most `width`
      digits: exactly `width` digits, denoting `n`. */
  function PaddedNumeral(n: nat, width: nat): (p: string)
    requires width >= 1 && n < IntPow10(width)
    ensures |p| == width && AllDecimalDigits(p)
    ensures AllRadixDigits(p, 10) && RadixValue(p, 10) == n
  {
    NatToStringLength(n, width);
    ZeroPadValue(NatToString(n), width);
    PadStart(IntToString(n), width, "0")
  }

  /** `generateInvoiceNumber()`: "INV-", the year, the month and the day,
      "-" and the serial. */
  function GenerateInvoiceNumber(today: LocalDate, random: real): (r: string)
    requires ValidLocalDate(today) && 0.0 <= random < 1.0
    ensures |r| == |IntToString(today.fullYear)| + 12
    ensures r[..4] == "INV-" && r[|r| - 4] == '-'
  {
    FormatInvoiceNumber(today, RandomSerial(random))
  }

  /** The template filled with the date and a serial below 1000. */
  function FormatInvoiceNumber(today: LocalDate, serial: nat): (r: string)
    requires ValidLocalDate(today) && serial < 1000
    ensures |r| == |IntToString(today.fullYear)| + 12
    ensures r[..4] == "INV-" && r[|r| - 4] == '-'
  {
    Concat(IntToString(today.fullYear), TwoDigits(today.monthIndex + 1), TwoDigits(today.dayOfMonth), ThreeDigits(serial))
  }

  /** `String(n).padStart(2, '0')` for a month or a day. */
  function TwoDigits(n: nat): (p: string)
    requires n < 100
    ensures |p| == 2 && AllDecimalDigits(p) && RadixValue(p, 10) == n
  {
    assert IntPow10(2) == 100;
    PaddedNumeral(n, 2)
  }

  /** `String(n).padStart(3, '0')` for the serial. */
  function ThreeDigits(n: nat): (p: string)
    requires n < 1000
    ensures |p| == 3 && AllDecimalDigits(p) && RadixValue(p, 10) == n
  {
    assert IntPow10(3) == 1000;
    PaddedNumeral(n, 3)
  }

  /** The template `INV-${year}${month}${day}-${random}`. */
  function Concat(year: string, month: string, day: string, serial: string): (r: string)
    requires |month| == 2 && |day| == 2 && |serial| == 3
    ensures |r| == |year| + 12
    ensures r[..4] == "INV-" && r[|r| - 4] == '-'
    ensures r[4..|r| - 8] == year && r[|r| - 8..|r| - 6] == month
    ensures r[|r| - 6..|r| - 4] == day && r[|r| - 3..] == serial
  {
    "INV-" + year + month + day + "-" + serial
  }

  /** The parts an invoice number of this shape encodes. */
  datatype InvoiceNumberFields = InvoiceNumberFields(year: int, month: nat, day: nat, serial: nat)

  /** An optionally negative decimal year. */
  function ParseYear(y: string): Option<int>
  {
    if |y| > 1 && y[0] == '-' && AllDecimalDigits(y[1..]) then Some(0 - RadixValue(y[1..], 10) as int)
    else if y != [] && AllDecimalDigits(y) then Some(RadixValue(y, 10))
    else None
  }

  /** Reads `INV-<year><MM><DD>-<NNN>` back into its parts, `None` for any
      other text. */
  function ParseInvoiceNumber(s: string): Option<InvoiceNumberFields>
  {
    if |s| < 13 || s[..4] != "INV-" || s[|s| - 4] != '-' then None
    else
      var year := ParseYear(s[4..|s| - 8]);
      var month := s[|s| - 8..|s| - 6];
      var day := s[|s| - 6..|s| - 4];
      var serial := s[|s| - 3..];
      if year.Some? && AllDecimalDigits(month) && AllDecimalDigits(day) && AllDecimalDigits(serial) then
        Some(InvoiceNumberFields(year.value, RadixValue(month, 10), RadixValue(day, 10), RadixValue(serial, 10)))
      else None
  }

  lemma ParseYearOfIntToString(y: int)
    ensures ParseYear(IntToString(y)) == Some(y)
  {
    var t := IntToString(y);
    if y < 0 {
      assert t[1..] == NatToString(-y);
    }
  }

  /** Any text laid out as `INV-<year><MM><DD>-<NNN>` with a year that
      parses and all-digit parts reads back as those parts. */
  lemma ParseLaidOut(year: string, month: string, day: string, serial: string)
    requires |month| == 2 && |day| == 2 && |serial| == 3
    requires ParseYear(year).Some?
    requires AllDecimalDigits(month) && AllDecimalDigits(day) && AllDecimalDigits(serial)
    ensures ParseInvoiceNumber(Concat(year, month, day, serial))
         == Some(InvoiceNumberFields(ParseYear(year).value, RadixValue(month, 10), RadixValue(day, 10), RadixValue(serial, 10)))
  {
    assert |year| >= 1;
  }

  /** A formatted number carries the year, the month (1-12), the day and
      the serial. */
  lemma FormattedNumberParses(today: LocalDate, serial: nat)
    requires ValidLocalDate(today) && serial < 1000
    ensures ParseInvoiceNumber(FormatInvoiceNumber(today, serial))
         == Some(InvoiceNumberFields(today.fullYear, today.monthIndex + 1, today.dayOfMonth, serial))
  {
    ParseYearOfIntToString(today.fullYear);
    ParseLaidOut(IntToString(today.fullYear), TwoDigits(today.monthIndex + 1), TwoDigits(today.dayOfMonth), ThreeDigits(serial));
  }

  /** A generated number carries the year, the month (1-12), the day and
      the serial it was made from. */
  lemma GeneratedNumberParses(today: LocalDate, random: real)
    requires ValidLocalDate(today) && 0.0 <= random < 1.0
    ensures ParseInvoiceNumber(GenerateInvoiceNumber(today, random))
         == Some(InvoiceNumberFields(today.fullYear, today.monthIndex + 1, today.dayOfMonth, RandomSerial(random)))
  {
    FormattedNumberParses(today, RandomSerial(random));
  }

  /** The effect that fills the number field: a new number only when the
      field is empty, otherwise the field as it is. */
  function NextInvoiceNumber(current: string, today: LocalDate, random: real): (r: string)
    requires ValidLocalDate(today) && 0.0 <= random < 1.0
    ensures current != "" ==> r == current
    ensures current == "" ==> r == GenerateInvoiceNumber(today, random)
    ensures r != ""
  {
    if current == "" then GenerateInvoiceNumber(today, random) else current
  }

  /** Running the effect again, at any time and with any random value, keeps
      the number it produced. */
  lemma NextInvoiceNumberIsStable(current: string, d1: LocalDate, r1: real, d2: LocalDate, r2: real)
    requires ValidLocalDate(d1) && 0.0 <= r1 < 1.0 && ValidLocalDate(d2) && 0.0 <= r2 < 1.0
    ensures NextInvoiceNumber(NextInvoiceNumber(current, d1, r1), d2, r2) == NextInvoiceNumber(current, d1, r1)
  {
  }
}
