/** The one-line formatter behind `Log.error`, `Log.warn` and `Log.info`:
    `"[" + colour(timestamp + " " + SEVERITY) + "] " + message`. The wall
    clock reading (`Date()`) is the `date` argument and the terminal colouring
    library is a `Palette` of three string functions. */
module Format {
  import opened JsText

  datatype Severity = Error | Warning | Info

  /** The word appended to the timestamp, with its leading space. */
  function Label(sev: Severity): (w: string)
    ensures |w| >= 5 && w[0] == ' '
  {
    match sev
    case Error => " ERROR"
    case Warning => " WARNING"
    case Info => " INFO"
  }

  /** The colouring library's red, yellow and green. With colours switched
      off each of them is the identity. */
  datatype Palette = Palette(red: string -> string, yellow: string -> string, green: string -> string)

  function Plain(): Palette
  {
    Palette(s => s, s => s, s => s)
  }

  /** Error is red, warning yellow and info green. */
  function Colour(p: Palette, sev: Severity): string -> string
  {
    match sev
    case Error => p.red
    case Warning => p.yellow
    case Info => p.green
  }

  /** `date.split(' ').slice(1, 5).join(' ')`: the first token of the date
      string is dropped and at most the next four are kept. */
  function Timestamp(date: string): string
  {
    Join(Slice(Split(date, ' '), 1, 5), ' ')
  }

  /** Everything in front of the message: the bracketed, coloured stamp and
      the space after it. */
  function Header(sev: Severity, date: string, p: Palette): string
  {
    "[" + Colour(p, sev)(Timestamp(date) + Label(sev)) + "] "
  }

  /** The formatted line. The message follows the header verbatim, right
      after the closing `"] "`. */
  function FormatLine(sev: Severity, date: string, p: Palette, msg: string): (r: string)
    ensures |r| == |Header(sev, date, p)| + |msg|
    ensures r[0] == '['
    ensures r[|r| - |msg| - 2..|r| - |msg|] == "] "
    ensures r[|r| - |msg|..] == msg
  {
    var h := Header(sev, date, p);
    assert h[|h| - 2..] == "] ";
    h + msg
  }

  /** The timestamp drops token 0 of the space-split date and keeps the
      tokens 1 to 4 that exist, joined by single spaces; a date with no space
      at all gives an empty timestamp. */
  lemma TimestampTokens(date: string)
    ensures var toks := Split(date, ' ');
      if |toks| == 1 then Timestamp(date) == ""
      else Split(Timestamp(date), ' ') == toks[1..if |toks| < 5 then |toks| else 5]
  {
    var toks := Split(date, ' ');
    if |toks| > 1 {
      var kept := Slice(toks, 1, 5);
      assert kept == toks[1..if |toks| < 5 then |toks| else 5];
      SplitJoin(kept, ' ');
    }
  }

  /** A timestamp never has more than four space-separated tokens. */
  lemma TimestampAtMostFourTokens(date: string)
    ensures 1 <= |Split(Timestamp(date), ' ')| <= 4
  {
    TimestampTokens(date);
  }

  /** `Date().toString()` has the shape "Thu Oct 15 2026 10:00:00 GMT+0000
      (Coordinated Universal Time)": five space-free fields and then the
      offset and the zone name, which may hold spaces of its own. The
      timestamp keeps month, day, year and time and drops the weekday and
      everything after the time. */
  lemma TimestampOfDateString(weekday: string, month: string, day: string, year: string,
                              time: string, rest: string)
    requires ' ' !in weekday && ' ' !in month && ' ' !in day && ' ' !in year && ' ' !in time
    ensures Timestamp(Join([weekday, month, day, year, time], ' ') + " " + rest)
         == month + " " + day + " " + year + " " + time
  {
    var fields := [weekday, month, day, year, time];
    var toks := fields + Split(rest, ' ');
    SplitJoinThen(fields, rest, ' ');
    assert Split(Join(fields, ' ') + " " + rest, ' ') == toks;
    assert Slice(toks, 1, 5) == [month, day, year, time];
    assert [month, day, year, time][1..] == [day, year, time];
    assert [day, year, time][1..] == [year, time];
    assert [year, time][1..] == [time];
    assert Join([year, time], ' ') == year + " " + time;
    assert Join([day, year, time], ' ') == day + " " + year + " " + time;
    assert Join([month, day, year, time], ' ') == month + " " + day + " " + year + " " + time;
  }

  /** Two lines with the same severity and clock reading are equal exactly
      when their messages are: nothing of the message is lost or merged. */
  lemma FormatLineInjective(sev: Severity, date: string, p: Palette, m1: string, m2: string)
    ensures FormatLine(sev, date, p, m1) == FormatLine(sev, date, p, m2) <==> m1 == m2
  {
    var r1, r2 := FormatLine(sev, date, p, m1), FormatLine(sev, date, p, m2);
    if r1 == r2 {
      assert m1 == r1[|r1| - |m1|..];
    }
  }

  /** With colours switched off the stamp is readable text: the timestamp,
      the severity word, the closing bracket and the message. */
  lemma PlainLine(sev: Severity, date: string, msg: string)
    ensures FormatLine(sev, date, Plain(), msg) == "[" + Timestamp(date) + Label(sev) + "] " + msg
  {
    match sev
    case Error =>
    case Warning =>
    case Info =>
  }
}
