/**
  The data frames the script loads, and its type sniffer (main.py:135-191):
  `sampleEntry` picks one example value of a column, and `smartTyper`
  converts a column to date-times when that example looks like a
  `YYYY-MM-DD` date.
 */
module Typing {
  import opened Options
  import opened Chars

  // ---------------------------------------------------------------------------
  // Frames
  // ---------------------------------------------------------------------------

  /** One cell of a loaded CSV: text, a number, a missing value (NaN), or a
      date-time produced by the date parser. */
  datatype Cell = Text(s: string) | Numeric(n: int) | Missing | Moment(ticks: int)

  /** The value of a data frame: its row count and its columns by name. */
  datatype Table = Table(rows: nat, columns: map<string, seq<Cell>>)

  /** `df[name] = values` */
  function WithColumn(t: Table, name: string, values: seq<Cell>): (r: Table)
    ensures r.rows == t.rows && name in r.columns && r.columns[name] == values
    ensures forall c :: c != name ==> (c in r.columns <==> c in t.columns)
    ensures forall c :: c != name && c in t.columns ==> r.columns[c] == t.columns[c]
  {
    Table(t.rows, t.columns[name := values])
  }

  /** `df[name] = value` for a scalar: the value is repeated on every row. */
  function WithConstant(t: Table, name: string, value: Cell): (r: Table)
    ensures r.rows == t.rows && name in r.columns && |r.columns[name]| == t.rows
    ensures forall k :: 0 <= k < t.rows ==> r.columns[name][k] == value
    ensures forall c :: c != name ==> (c in r.columns <==> c in t.columns)
    ensures forall c :: c != name && c in t.columns ==> r.columns[c] == t.columns[c]
  {
    WithColumn(t, name, seq(t.rows, _ => value))
  }

  /** A pandas DataFrame, which the script updates in place. */
  class Frame {
    var rows: nat
    var columns: map<string, seq<Cell>>

    function Snapshot(): Table
      reads this
    {
      Table(rows, columns)
    }

    constructor (t: Table)
      ensures Snapshot() == t
    {
      rows := t.rows;
      columns := t.columns;
    }

    method AssignColumn(name: string, values: seq<Cell>)
      modifies this
      ensures Snapshot() == WithColumn(old(Snapshot()), name, values)
    {
      columns := columns[name := values];
    }

    method AssignConstant(name: string, value: Cell)
      modifies this
      ensures Snapshot() == WithConstant(old(Snapshot()), name, value)
    {
      columns := columns[name := seq(rows, _ => value)];
    }
  }

  // ---------------------------------------------------------------------------
  // sampleEntry (main.py:173-191)
  // ---------------------------------------------------------------------------

  /** `column[0]`, or `None` when that lookup fails on an empty column. */
  function SampleEntry(column: seq<Cell>): (r: Option<Cell>)
    ensures r.None? <==> column == []
    ensures r.Some? ==> r.value == column[0]
  {
    if |column| > 0 then Some(column[0]) else None
  }

  /** The sample depends on the first position only, whatever the rest holds. */
  lemma SampleReadsFirstOnly(a: seq<Cell>, b: seq<Cell>)
    requires |a| > 0 && |b| > 0 && a[0] == b[0]
    ensures SampleEntry(a) == SampleEntry(b)
  {
  }

  // ---------------------------------------------------------------------------
  // The date pattern of smartTyper (main.py:158-161)
  // ---------------------------------------------------------------------------

  /** `0[1-9]|1[0-2]` */
  predicate IsMonthCode(m: string) {
    |m| == 2 && ((m[0] == '0' && '1' <= m[1] <= '9') || (m[0] == '1' && '0' <= m[1] <= '2'))
  }

  /** `0[1-9]|1[0-9]|2[0-9]|3[01]` */
  predicate IsDayCode(d: string) {
    |d| == 2 &&
    ((d[0] == '0' && '1' <= d[1] <= '9') || (d[0] == '1' && IsDigit(d[1])) ||
     (d[0] == '2' && IsDigit(d[1])) || (d[0] == '3' && '0' <= d[1] <= '1'))
  }

  function DigitValue(c: char): int {
    c as int - '0' as int
  }

  function TwoDigitValue(s: string): int
    requires |s| == 2
  {
    10 * DigitValue(s[0]) + DigitValue(s[1])
  }

  /** The month alternatives accept exactly the two-digit numbers 1 to 12. */
  lemma MonthCodeRange(m: string)
    requires |m| == 2 && AllDigits(m)
    ensures IsMonthCode(m) <==> 1 <= TwoDigitValue(m) <= 12
  {
  }

  /** The day alternatives accept exactly the two-digit numbers 1 to 31; the
      month is not consulted, so `2024-02-31` passes. */
  lemma DayCodeRange(d: string)
    requires |d| == 2 && AllDigits(d)
    ensures IsDayCode(d) <==> 1 <= TwoDigitValue(d) <= 31
  {
  }

  function DateText(year: string, month: string, day: string, rest: string): string {
    year + "-" + month + "-" + day + rest
  }

  /** `re.match(r'\b(\d{4})-(0[1-9]|1[0-2])-(0[1-9]|1[0-9]|2[0-9]|3[01])\b', s)`
      succeeds: the opening `\b` always holds before a digit at the start, the
      closing one needs the end of the text or a non-word character. */
  ghost predicate DatePattern(s: string) {
    exists year, month, day, rest ::
      |year| == 4 && AllDigits(year) && IsMonthCode(month) && IsDayCode(day) &&
      (rest == [] || !IsWordChar(rest[0])) && s == DateText(year, month, day, rest)
  }

  predicate IsDateLike(s: string) {
    |s| >= 10 && AllDigits(s[..4]) && s[4] == '-' && IsMonthCode(s[5..7]) &&
    s[7] == '-' && IsDayCode(s[8..10]) && (|s| == 10 || !IsWordChar(s[10]))
  }

  /** Where the parts of a date text sit. */
  lemma DateTextParts(year: string, month: string, day: string, rest: string)
    requires |year| == 4 && |month| == 2 && |day| == 2
    ensures var s := DateText(year, month, day, rest);
      |s| == 10 + |rest| && s[..4] == year && s[4] == '-' && s[5..7] == month &&
      s[7] == '-' && s[8..10] == day && s[10..] == rest
  {
  }

  lemma DateLikeIsPattern(s: string)
    requires IsDateLike(s)
    ensures DatePattern(s)
  {
    var year, month, day, rest := s[..4], s[5..7], s[8..10], s[10..];
    DateTextParts(year, month, day, rest);
    assert s == DateText(year, month, day, rest);
  }

  lemma PatternIsDateLike(s: string)
    requires DatePattern(s)
    ensures IsDateLike(s)
  {
    var year, month, day, rest :| |year| == 4 && AllDigits(year) && IsMonthCode(month) &&
      IsDayCode(day) && (rest == [] || !IsWordChar(rest[0])) && s == DateText(year, month, day, rest);
    DateTextParts(year, month, day, rest);
  }

  /** The index-based test agrees with the regular expression, in both directions. */
  lemma IsDateLikeMatchesPattern(s: string)
    ensures IsDateLike(s) <==> DatePattern(s)
  {
    if IsDateLike(s) {
      DateLikeIsPattern(s);
    }
    if DatePattern(s) {
      PatternIsDateLike(s);
    }
  }


  // ---------------------------------------------------------------------------
  // smartTyper (main.py:135-171)
  // ---------------------------------------------------------------------------

  /** What `smartTyper` returns: `type(str)` (the `type` object), `None`, the
      frame it was given, or the converted column. */
  datatype Typed = TypeObject | NoneObject | FrameObject | SeriesObject(values: seq<Cell>)

  datatype TyperOutcome = TyperOutcome(result: Typed, frame: Table)

  /** `pd.to_datetime` applied to a whole column; `None` stands for its `ValueError`. */
  type DateParser = seq<Cell> -> Option<seq<Cell>>

  /**
    The outcome of `smartTyper(example, df, col, convert)`. The date parser
    `pd.to_datetime` is the parameter `toDatetime`; `None` from it stands for
    the `ValueError` that `smartTyper` catches.
   */
  function SmartTyperSpec(example: Option<Cell>, t: Table, col: string, convert: bool,
                          toDatetime: DateParser): TyperOutcome
    requires col in t.columns
  {
    if !(example.Some? && example.value.Text?) then TyperOutcome(TypeObject, t)
    else if !IsDateLike(example.value.s) then TyperOutcome(NoneObject, t)
    else
      match toDatetime(t.columns[col])
      case None => TyperOutcome(NoneObject, t)
      case Some(converted) =>
        if convert then TyperOutcome(FrameObject, WithColumn(t, col, converted))
        else TyperOutcome(SeriesObject(converted), t)
  }

  /**
    The outcomes of `smartTyper`, each with the condition that produces it:
    a non-text example gives the `type` object; text that is not a date, or a
    column the parser rejects, gives `None`; otherwise the converted column is
    returned, or stored in the frame and the frame returned. The frame changes
    only in that last case, and only in column `col`.
   */
  lemma SmartTyperOutcomes(example: Option<Cell>, t: Table, col: string, convert: bool,
                           toDatetime: DateParser)
    requires col in t.columns
    ensures var o := SmartTyperSpec(example, t, col, convert, toDatetime);
      && (o.result == TypeObject <==> !(example.Some? && example.value.Text?))
      && (o.result == NoneObject <==>
            example.Some? && example.value.Text? &&
            (!DatePattern(example.value.s) || toDatetime(t.columns[col]).None?))
      && (o.result == FrameObject <==>
            convert && example.Some? && example.value.Text? && DatePattern(example.value.s) &&
            toDatetime(t.columns[col]).Some?)
      && (o.result.SeriesObject? <==>
            !convert && example.Some? && example.value.Text? && DatePattern(example.value.s) &&
            toDatetime(t.columns[col]).Some?)
      && (o.result == FrameObject ==> o.frame == WithColumn(t, col, toDatetime(t.columns[col]).value))
      && (o.result != FrameObject ==> o.frame == t)
  {
    if example.Some? && example.value.Text? {
      IsDateLikeMatchesPattern(example.value.s);
    }
  }

  /** `smartTyper`: with `convert` it writes the converted column into `df` in place. */
  method SmartTyper(example: Option<Cell>, df: Frame, col: string, convert: bool,
                    toDatetime: DateParser) returns (r: Typed)
    requires col in df.columns
    modifies df
    ensures TyperOutcome(r, df.Snapshot()) == SmartTyperSpec(example, old(df.Snapshot()), col, convert, toDatetime)
  {
    if !(example.Some? && example.value.Text?) {
      return TypeObject;
    }
    if IsDateLike(example.value.s) {
      var parsed := toDatetime(df.columns[col]);
      if parsed.None? {
        return NoneObject;
      }
      if convert {
        df.AssignColumn(col, parsed.value);
        return FrameObject;
      } else {
        return SeriesObject(parsed.value);
      }
    }
    return NoneObject;
  }
}
