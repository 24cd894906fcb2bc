/**
 * The Telegram text the forwarder builds for a message: the sender's name in bold,
 * a Russian date line such as `29 октября, 12:53`, a blank line, and the text
 * in a block quote.
 */
module Format {
  import opened Wrappers
  import opened PyText

  /** The fields of a `datetime` the header reads, within `datetime`'s own ranges. */
  datatype DateTime = DateTime(year: int, month: int, day: int, hour: int, minute: int, second: int)

  predicate ValidDateTime(t: DateTime) {
    1 <= t.month <= 12 && 1 <= t.day <= 31 && 0 <= t.hour < 24 && 0 <= t.minute < 60 && 0 <= t.second < 60
  }

  /** The genitive month names, January first. */
  const MONTHS: seq<string> := ["января", "февраля", "марта", "апреля", "мая", "июня",
                                 "июля", "августа", "сентября", "октября", "ноября", "декабря"]

  function MonthName(month: int): string
    requires 1 <= month <= 12
  {
    MONTHS[month - 1]
  }

  /** The month (1-12) whose name is `name`, searching from month `from`. */
  function MonthNumber(name: string, from: nat): (r: Option<int>)
    requires 1 <= from <= 13
    ensures r.Some? ==> from <= r.value <= 12 && MonthName(r.value) == name
    decreases 13 - from
  {
    if from == 13 then None
    else if MONTHS[from - 1] == name then Some(from)
    else MonthNumber(name, from + 1)
  }

  /** Every month name is told apart from the others. */
  lemma MonthNumberOfName(month: int)
    requires 1 <= month <= 12
    ensures MonthNumber(MonthName(month), 1) == Some(month)
  {
  }

  /** `f"{day} {month}, {time:%H:%M}"`. */
  function DateLine(t: DateTime): string
    requires ValidDateTime(t)
  {
    NatToString(t.day) + " " + MonthName(t.month) + ", " + Pad2(t.hour) + ":" + Pad2(t.minute)
  }

  /** `format_message_for_telegram`. */
  function FormatMessage(senderName: string, text: string, t: DateTime): string
    requires ValidDateTime(t)
  {
    "<b>" + senderName + "</b>\n" + DateLine(t) + "\n\n<blockquote>" + text + "</blockquote>"
  }

  predicate StartsWith(s: string, p: string) {
    |p| <= |s| && s[..|p|] == p
  }

  predicate EndsWith(s: string, p: string) {
    |p| <= |s| && s[|s| - |p|..] == p
  }

  /** Two decimal digits. */
  function ReadPad2(s: string): Option<nat> {
    if |s| == 2 && AllDigits(s) then Some(DigitsValue(s)) else None
  }

  /** Reads ` HH:MM` back into hour and minute. */
  function ReadClock(clock: string): Option<(nat, nat)> {
    if |clock| != 6 || clock[0] != ' ' || clock[3] != ':' then None
    else
      match (ReadPad2(clock[1..3]), ReadPad2(clock[4..]))
      case (Some(h), Some(m)) => Some((h, m))
      case _ => None
  }

  /** Reads a date line back into day, month, hour and minute. */
  function ReadDateLine(line: string): Option<(nat, int, nat, nat)> {
    if ' ' !in line then None
    else
      var (dayText, rest) := SplitFirst(line, ' ');
      if dayText == [] || !AllDigits(dayText) || ',' !in rest then None
      else
        var (name, clock) := SplitFirst(rest, ',');
        match (MonthNumber(name, 1), ReadClock(clock))
        case (Some(month), Some((h, m))) => Some((DigitsValue(dayText), month, h, m))
        case _ => None
  }

  /** `\n<blockquote>{text}</blockquote>` back into the text. */
  function ReadQuote(body: string): Option<string> {
    if StartsWith(body, "\n<blockquote>") && EndsWith(body[13..], "</blockquote>")
    then Some(body[13..|body| - 13])
    else None
  }

  /** `{date}\n{quote}` back into the date line and the text. */
  function ReadBody(rest: string): Option<(string, string)> {
    if '\n' !in rest then None
    else
      var (date, body) := SplitFirst(rest, '\n');
      match ReadQuote(body)
      case Some(text) => Some((date, text))
      case None => None
  }

  /** Reads a header back into sender name, date line and text. */
  function ReadMessage(msg: string): Option<(string, string, string)> {
    if !StartsWith(msg, "<b>") || '\n' !in msg[3..] then None
    else
      var (first, rest) := SplitFirst(msg[3..], '\n');
      if !EndsWith(first, "</b>") then None
      else
        match ReadBody(rest)
        case Some((date, text)) => Some((first[..|first| - 4], date, text))
        case None => None
  }

  lemma NatToStringHasNoSpace(n: nat)
    ensures ' ' !in NatToString(n) && '\n' !in NatToString(n) && NatToString(n) != []
  {
    var ds := NatToString(n);
    assert AllDigits(ds);
  }

  lemma MonthNamesPlain(month: int)
    requires 1 <= month <= 12
    ensures ',' !in MonthName(month) && '\n' !in MonthName(month)
  {
  }

  lemma ReadClockOf(hh: string, mm: string)
    requires |hh| == 2 && AllDigits(hh) && |mm| == 2 && AllDigits(mm)
    ensures ReadClock(" " + hh + ":" + mm) == Some((DigitsValue(hh), DigitsValue(mm)))
  {
    var clock := " " + hh + ":" + mm;
    assert clock[1..3] == hh && clock[4..] == mm;
  }

  lemma ReadDateLineOf(d: string, name: string, clock: string)
    requires d != [] && AllDigits(d) && ',' !in name
    ensures ' ' !in d
    ensures ReadDateLine(d + " " + name + "," + clock) ==
      match (MonthNumber(name, 1), ReadClock(clock))
      case (Some(month), Some((h, m))) => Some((DigitsValue(d), month, h, m))
      case _ => None
  {
    assert ' ' !in d;
    assert d + " " + name + "," + clock == d + [' '] + (name + [','] + clock);
    SplitFirstOf(d, name + [','] + clock, ' ');
    SplitFirstOf(name, clock, ',');
  }

  lemma DateLineShape(d: string, name: string, hh: string, mm: string)
    ensures d + " " + name + ", " + hh + ":" + mm == d + " " + name + "," + (" " + hh + ":" + mm)
  {
  }

  /** The date line gives back the day, the month and the time of day it was written from. */
  lemma DateLineRoundTrip(t: DateTime)
    requires ValidDateTime(t)
    ensures ReadDateLine(DateLine(t)) == Some((t.day as nat, t.month, t.hour as nat, t.minute as nat))
  {
    var d := NatToString(t.day);
    var name := MonthName(t.month);
    var hh := Pad2(t.hour);
    var mm := Pad2(t.minute);
    assert AllDigits(d);
    MonthNamesPlain(t.month);
    NatToStringRoundTrip(t.day);
    MonthNumberOfName(t.month);
    ReadClockOf(hh, mm);
    ReadDateLineOf(d, name, " " + hh + ":" + mm);
    DateLineShape(d, name, hh, mm);
  }

  lemma DateLineHasNoNewline(t: DateTime)
    requires ValidDateTime(t)
    ensures '\n' !in DateLine(t)
  {
    NatToStringHasNoSpace(t.day);
    MonthNamesPlain(t.month);
    var p := Pad2(t.hour);
    var q := Pad2(t.minute);
    assert AllDigits(p) && AllDigits(q);
  }

  lemma ReadQuoteOf(text: string)
    ensures ReadQuote("\n<blockquote>" + text + "</blockquote>") == Some(text)
  {
    var body := "\n<blockquote>" + text + "</blockquote>";
    assert body[..13] == "\n<blockquote>";
    assert body[13..] == text + "</blockquote>";
    assert body[13..|body| - 13] == text;
  }

  lemma ReadBodyOf(date: string, text: string)
    requires '\n' !in date
    ensures ReadBody(date + "\n" + ("\n<blockquote>" + text + "</blockquote>")) == Some((date, text))
  {
    SplitFirstOf(date, "\n<blockquote>" + text + "</blockquote>", '\n');
    ReadQuoteOf(text);
  }

  lemma ReadHeaderOf(first: string, rest: string)
    requires '\n' !in first && EndsWith(first, "</b>")
    ensures ReadMessage("<b>" + (first + ['\n'] + rest)) ==
      match ReadBody(rest)
      case Some((date, text)) => Some((first[..|first| - 4], date, text))
      case None => None
  {
    var msg := "<b>" + (first + ['\n'] + rest);
    assert msg[..3] == "<b>" && msg[3..] == first + ['\n'] + rest;
    SplitFirstOf(first, rest, '\n');
  }

  /** A header gives back the name, date line and text it was built from, whatever the text holds. */
  lemma ReadMessageOf(senderName: string, date: string, text: string)
    requires '\n' !in senderName && '\n' !in date
    ensures ReadMessage("<b>" + senderName + "</b>\n" + date + "\n\n<blockquote>" + text + "</blockquote>")
            == Some((senderName, date, text))
  {
    var first := senderName + "</b>";
    var rest := date + "\n" + ("\n<blockquote>" + text + "</blockquote>");
    var msg := "<b>" + (first + ['\n'] + rest);
    assert msg == "<b>" + senderName + "</b>\n" + date + "\n\n<blockquote>" + text + "</blockquote>";
    assert '\n' !in first;
    assert first[|first| - 4..] == "</b>" && first[..|first| - 4] == senderName;
    ReadHeaderOf(first, rest);
    ReadBodyOf(date, text);
  }

  /**
   * `format_message_for_telegram` loses nothing: the sender name (a single line),
   * the date line and the text can all be read back.
   */
  lemma FormatMessageRoundTrip(senderName: string, text: string, t: DateTime)
    requires ValidDateTime(t)
    requires '\n' !in senderName
    ensures ReadMessage(FormatMessage(senderName, text, t)) == Some((senderName, DateLine(t), text))
  {
    DateLineHasNoNewline(t);
    ReadMessageOf(senderName, DateLine(t), text);
  }
}
