/** The serial reader: each line a gateway prints is split into its device and
    sensor text, the four measurements are extracted, and a successful reading
    is appended to that device's list, which is then written out whole to the
    device's log file of the day. A line whose fields cannot be extracted is
    appended to the parse-error log instead. */
module SensorReader {
  import opened Wrappers
  import opened Decimal
  import opened Strings
  import opened Readings

  /** `valid_devices`. */
  const ValidDevices: set<string> := {"adlab01", "adlab02", "adlab03", "adlab04", "adlab05"}

  type Second = s: int | 0 <= s < 60

  /** `datetime.now()`, to the second. */
  datatype DateTime = DateTime(day: CalendarDay, hour: Hour, minute: Minute, second: Second)

  // ---------------------------------------------------------------- time stamps

  /** `strftime("%Y-%m-%d")`. */
  function DateStr(d: CalendarDay): (s: string)
    ensures |s| == 10 && s[4] == '-' && s[7] == '-'
    ensures AllDigits(s[..4]) && AllDigits(s[5..7]) && AllDigits(s[8..])
    ensures DigitsValue(s[..4]) == d.year && DigitsValue(s[5..7]) == d.month && DigitsValue(s[8..]) == d.day
  {
    var s := Pad4(d.year) + "-" + Pad2(d.month) + "-" + Pad2(d.day);
    assert s[..4] == Pad4(d.year) && s[5..7] == Pad2(d.month) && s[8..] == Pad2(d.day);
    s
  }

  /** `strftime("%Y-%m-%d %H:%M:%S")`: the date of the same instant, then the time. */
  function FormatTimestamp(t: DateTime): (s: string)
    ensures |s| == 19 && s[..10] == DateStr(t.day) && s[10] == ' ' && s[13] == ':' && s[16] == ':'
  {
    var s := DateStr(t.day) + " " + Pad2(t.hour) + ":" + Pad2(t.minute) + ":" + Pad2(t.second);
    assert s[..10] == DateStr(t.day);
    s
  }

  /** Reads a `%Y-%m-%d` date back; `None` for any other text. */
  function ParseDate(s: string): (r: Option<CalendarDay>)
    ensures r.Some? ==> DateStr(r.value) == s
  {
    if |s| == 10 && s[4] == '-' && s[7] == '-' && AllDigits(s[..4]) && AllDigits(s[5..7]) && AllDigits(s[8..]) then
      var y, m, d := DigitsValue(s[..4]), DigitsValue(s[5..7]), DigitsValue(s[8..]);
      if 1000 <= y < 10000 && 1 <= m <= 12 && 1 <= d <= 31 then
        var day := CalendarDay(y, m, d);
        DateTextsEqual(DateStr(day), s);
        Some(day)
      else None
    else None
  }

  /** Two `yyyy-mm-dd` texts with the same three numbers are the same text. */
  lemma DateTextsEqual(t: string, s: string)
    requires |t| == |s| == 10 && t[4] == s[4] && t[7] == s[7]
    requires AllDigits(t[..4]) && AllDigits(s[..4]) && DigitsValue(t[..4]) == DigitsValue(s[..4])
    requires AllDigits(t[5..7]) && AllDigits(s[5..7]) && DigitsValue(t[5..7]) == DigitsValue(s[5..7])
    requires AllDigits(t[8..]) && AllDigits(s[8..]) && DigitsValue(t[8..]) == DigitsValue(s[8..])
    ensures t == s
  {
    DigitsEqual(t[..4], s[..4]);
    DigitsEqual(t[5..7], s[5..7]);
    DigitsEqual(t[8..], s[8..]);
    assert t == t[..4] + t[4..5] + t[5..7] + t[7..8] + t[8..];
    assert s == s[..4] + s[4..5] + s[5..7] + s[7..8] + s[8..];
  }

  lemma DateRoundTrip(d: CalendarDay)
    ensures ParseDate(DateStr(d)) == Some(d)
  {
  }

  /** Reads a `%Y-%m-%d %H:%M:%S` time stamp back; `None` for any other text. */
  function ParseTimestamp(s: string): (r: Option<DateTime>)
    ensures r.Some? ==> FormatTimestamp(r.value) == s
  {
    if |s| == 19 && s[10] == ' ' && s[13] == ':' && s[16] == ':'
       && AllDigits(s[11..13]) && AllDigits(s[14..16]) && AllDigits(s[17..]) then
      match ParseDate(s[..10])
      case None => None
      case Some(day) =>
        var h, m, sec := DigitsValue(s[11..13]), DigitsValue(s[14..16]), DigitsValue(s[17..]);
        if h < 24 && m < 60 && sec < 60 then
          var dt := DateTime(day, h, m, sec);
          var t := FormatTimestamp(dt);
          TimestampFields(dt);
          DigitsEqual(t[11..13], s[11..13]);
          DigitsEqual(t[14..16], s[14..16]);
          DigitsEqual(t[17..], s[17..]);
          SameTimestamp(t, s);
          Some(dt)
        else None
    else None
  }

  /** Where `FormatTimestamp` puts the time of day. */
  lemma TimestampFields(t: DateTime)
    ensures var s := FormatTimestamp(t);
      s[11..13] == Pad2(t.hour) && s[14..16] == Pad2(t.minute) && s[17..] == Pad2(t.second)
  {
  }

  /** Two time-stamp-shaped texts that agree field by field are equal. */
  lemma SameTimestamp(s: string, t: string)
    requires |s| == |t| == 19 && s[..10] == t[..10] && s[10] == t[10] && s[13] == t[13] && s[16] == t[16]
    requires s[11..13] == t[11..13] && s[14..16] == t[14..16] && s[17..] == t[17..]
    ensures s == t
  {
    forall i | 0 <= i < 19 ensures s[i] == t[i] {
      if i < 10 { assert s[i] == s[..10][i]; }
      else if 11 <= i < 13 { assert s[i] == s[11..13][i - 11]; }
      else if 14 <= i < 16 { assert s[i] == s[14..16][i - 14]; }
      else if 17 <= i { assert s[i] == s[17..][i - 17]; }
    }
  }

  /** A time stamp the reader writes determines the instant it was taken, so
      the hour and minute a log consumer buckets by are recoverable from it. */
  lemma TimestampRoundTrip(t: DateTime)
    ensures ParseTimestamp(FormatTimestamp(t)) == Some(t)
  {
    TimestampFields(t);
    DateRoundTrip(t.day);
  }

  /** `f"{device}_{date_str}.json"`, the log file of a device and day. */
  function FileName(device: string, d: CalendarDay): (f: string)
    ensures |f| == |device| + 16
  {
    device + "_" + DateStr(d) + ".json"
  }

  /** Distinct devices or days write distinct files. */
  lemma FileNameInjective(d1: string, x: CalendarDay, d2: string, y: CalendarDay)
    ensures FileName(d1, x) == FileName(d2, y) <==> d1 == d2 && x == y
  {
    if FileName(d1, x) == FileName(d2, y) {
      var f := FileName(d1, x);
      assert f[..|d1|] == d1 && f[|d1| + 1..|d1| + 11] == DateStr(x);
      assert f[..|d2|] == d2 && f[|d2| + 1..|d2| + 11] == DateStr(y);
      DateRoundTrip(x);
      DateRoundTrip(y);
    }
  }

  /** `f"[{formatted_timestamp}] {line}\n"`, one line of the parse-error log. */
  function ErrorLine(now: DateTime, line: string): string
  {
    "[" + FormatTimestamp(now) + "] " + line + "\n"
  }

  // ---------------------------------------------------------------- the lux pattern

  predicate IsLuxChar(c: char)
  {
    IsDigit(c) || c == '.'
  }

  /** `\w` on ASCII text. */
  predicate IsWordChar(c: char)
  {
    'a' <= c <= 'z' || 'A' <= c <= 'Z' || IsDigit(c) || c == '_'
  }

  /** The length of the longest run of characters satisfying `p` from `i` on. */
  function RunLength(s: string, i: nat, p: char -> bool): (n: nat)
    requires i <= |s|
    ensures i + n <= |s|
    decreases |s| - i
  {
    if i < |s| && p(s[i]) then 1 + RunLength(s, i + 1, p) else 0
  }

  /** Every character of the run satisfies `p` and the one after it, if
      any, does not. */
  lemma {:induction false} RunLengthMeaning(s: string, i: nat, p: char -> bool)
    requires i <= |s|
    ensures var n := RunLength(s, i, p);
      (forall k :: i <= k < i + n ==> p(s[k])) && (i + n < |s| ==> !p(s[i + n]))
    decreases |s| - i
  {
    if i < |s| && p(s[i]) {
      RunLengthMeaning(s, i + 1, p);
    }
  }

  /** A stretch of `m` characters satisfying `p`, followed by the end of the
      text or a character that does not, is the whole run. */
  lemma {:induction false} RunLengthIs(s: string, i: nat, m: nat, p: char -> bool)
    requires i + m <= |s|
    requires forall k :: i <= k < i + m ==> p(s[k])
    requires i + m < |s| ==> !p(s[i + m])
    ensures RunLength(s, i, p) == m
    decreases m
  {
    if m > 0 {
      RunLengthIs(s, i + 1, m - 1, p);
    }
  }

  /** The pattern `Lux: ([\d.]+)lx \((\w+)\)` matches `s` at `p` with groups
      `number` and `direction`. */
  predicate LuxMatches(s: string, p: nat, number: string, direction: string)
  {
    && OccursAt(s, "Lux: ", p)
    && |number| > 0 && (forall k :: 0 <= k < |number| ==> IsLuxChar(number[k]))
    && OccursAt(s, number, p + 5)
    && OccursAt(s, "lx (", p + 5 + |number|)
    && |direction| > 0 && (forall k :: 0 <= k < |direction| ==> IsWordChar(direction[k]))
    && OccursAt(s, direction, p + 9 + |number|)
    && OccursAt(s, ")", p + 9 + |number| + |direction|)
  }

  lemma FirstCharAt(s: string, pat: string, i: nat)
    requires |pat| > 0 && OccursAt(s, pat, i)
    ensures i < |s| && s[i] == pat[0]
  {
    assert s[i..i + |pat|][0] == s[i];
  }

  /** A run of lux characters followed by `l` is the whole run. */
  lemma LuxRunIsMaximal(s: string, a: nat, number: string)
    requires (forall k :: 0 <= k < |number| ==> IsLuxChar(number[k])) && OccursAt(s, number, a)
    requires OccursAt(s, "lx (", a + |number|)
    ensures a <= |s| && |number| == RunLength(s, a, IsLuxChar) && number == s[a..a + |number|]
  {
    forall k | a <= k < a + |number| ensures IsLuxChar(s[k]) {
      assert s[a + (k - a)] == number[k - a];
    }
    FirstCharAt(s, "lx (", a + |number|);
    RunLengthIs(s, a, |number|, IsLuxChar);
  }

  /** A run of word characters followed by `)` is the whole run. */
  lemma WordRunIsMaximal(s: string, b: nat, direction: string)
    requires (forall k :: 0 <= k < |direction| ==> IsWordChar(direction[k])) && OccursAt(s, direction, b)
    requires OccursAt(s, ")", b + |direction|)
    ensures b <= |s| && |direction| == RunLength(s, b, IsWordChar) && direction == s[b..b + |direction|]
  {
    forall k | b <= k < b + |direction| ensures IsWordChar(s[k]) {
      assert s[b + (k - b)] == direction[k - b];
    }
    FirstCharAt(s, ")", b + |direction|);
    RunLengthIs(s, b, |direction|, IsWordChar);
  }

  lemma NumberIsMaximalRun(s: string, p: nat, number: string, direction: string)
    requires LuxMatches(s, p, number, direction)
    ensures var a := p + 5;
      a <= |s| && |number| == RunLength(s, a, IsLuxChar) && number == s[a..a + |number|]
  {
    LuxRunIsMaximal(s, p + 5, number);
  }

  lemma DirectionIsMaximalRun(s: string, p: nat, number: string, direction: string)
    requires LuxMatches(s, p, number, direction)
    ensures var b := p + 9 + |number|;
      b <= |s| && |direction| == RunLength(s, b, IsWordChar) && direction == s[b..b + |direction|]
  {
    WordRunIsMaximal(s, p + 9 + |number|, direction);
  }

  /** A match at `p` consists of the maximal run of lux characters after
      `Lux: ` and the maximal run of word characters after `lx (`. */
  lemma MatchIsMaximalRuns(s: string, p: nat, number: string, direction: string)
    requires LuxMatches(s, p, number, direction)
    ensures var a := p + 5;
      a <= |s| && |number| == RunLength(s, a, IsLuxChar) && number == s[a..a + |number|]
    ensures var b := p + 9 + |number|;
      b <= |s| && |direction| == RunLength(s, b, IsWordChar) && direction == s[b..b + |direction|]
  {
    NumberIsMaximalRun(s, p, number, direction);
    DirectionIsMaximalRun(s, p, number, direction);
  }

  /** The groups of the match at `p`, if the pattern matches there. */
  function LuxMatchAt(s: string, p: nat): (r: Option<(string, string)>)
    ensures r.Some? ==> |r.value.0| > 0 && |r.value.1| > 0
  {
    var a := p + 5;
    if !OccursAt(s, "Lux: ", p) then None
    else
      var n := RunLength(s, a, IsLuxChar);
      var b := a + n + 4;
      if n == 0 || !OccursAt(s, "lx (", a + n) then None
      else
        var w := RunLength(s, b, IsWordChar);
        if w == 0 || !OccursAt(s, ")", b + w) then None
        else Some((s[a..a + n], s[b..b + w]))
  }

  /** `LuxMatchAt` finds exactly the matches of the pattern: both repetitions
      are greedy and what follows each cannot continue it, so there is at
      most one match at a position. */
  lemma LuxMatchAtMeaning(s: string, p: nat, number: string, direction: string)
    ensures LuxMatches(s, p, number, direction) <==> LuxMatchAt(s, p) == Some((number, direction))
  {
    if LuxMatchAt(s, p).Some? {
      var a := p + 5;
      var n := RunLength(s, a, IsLuxChar);
      RunLengthMeaning(s, a, IsLuxChar);
      RunLengthMeaning(s, a + n + 4, IsWordChar);
    }
    if LuxMatches(s, p, number, direction) {
      MatchIsMaximalRuns(s, p, number, direction);
    }
  }

  /** A match of the pattern: where it starts and its two groups. */
  datatype LuxMatch = LuxMatch(at: nat, number: string, direction: string)

  /** `re.search`: the leftmost match at or after `from`. */
  function LuxSearchFrom(s: string, from: nat): (r: Option<LuxMatch>)
    requires from <= |s|
    ensures r.Some? ==> from <= r.value.at <= |s| && LuxMatches(s, r.value.at, r.value.number, r.value.direction)
    decreases |s| - from
  {
    match LuxMatchAt(s, from)
    case Some((number, direction)) =>
      LuxMatchAtMeaning(s, from, number, direction);
      Some(LuxMatch(from, number, direction))
    case None =>
      if from == |s| then None
      else LuxSearchFrom(s, from + 1)
  }

  /** The search from `from` skips no match, and finds none only when there
      is none from `from` to the end. */
  lemma {:induction false} LuxSearchFromMeaning(s: string, from: nat)
    requires from <= |s|
    ensures var r := LuxSearchFrom(s, from);
      r.Some? ==> forall q: nat, number, direction :: from <= q < r.value.at ==> !LuxMatches(s, q, number, direction)
    ensures var r := LuxSearchFrom(s, from);
      r.None? ==> forall q: nat, number, direction :: from <= q <= |s| ==> !LuxMatches(s, q, number, direction)
    decreases |s| - from
  {
    if LuxMatchAt(s, from).None? {
      forall number, direction ensures !LuxMatches(s, from, number, direction) {
        LuxMatchAtMeaning(s, from, number, direction);
      }
      if from < |s| {
        LuxSearchFromMeaning(s, from + 1);
      }
    }
  }

  /** `re.search(pattern, s)`: the leftmost match, or `None`. */
  function LuxSearch(s: string): (r: Option<LuxMatch>)
    ensures r.Some? ==> LuxMatches(s, r.value.at, r.value.number, r.value.direction)
  {
    LuxSearchFrom(s, 0)
  }

  /** The match `LuxSearch` finds is the leftmost one, and it finds none only
      when the pattern matches nowhere. */
  lemma LuxSearchMeaning(s: string)
    ensures var r := LuxSearch(s);
      r.Some? ==> forall q: nat, number, direction :: q < r.value.at ==> !LuxMatches(s, q, number, direction)
    ensures var r := LuxSearch(s);
      r.None? ==> forall q: nat, number, direction :: !LuxMatches(s, q, number, direction)
  {
    LuxSearchFromMeaning(s, 0);
    assert forall q: nat, number, direction :: q > |s| ==> !LuxMatches(s, q, number, direction);
  }

  // ---------------------------------------------------------------- fields

  /** The four measurements and the direction tag of one sensor text. */
  datatype Fields = Fields(temperature: real, humidity: real, lux: real, direction: string, pH: real)

/** `float(text)` of the text `Between` finds, or `None` where either step raises. */
  function FloatBetween(raw: string, open: string, close: string, toFloat: string -> Option<real>): (r: Option<real>)
    requires |open| > 0 && |close| > 0
    ensures IndexOf(raw, open).None? ==> r.None?
    ensures r.Some? ==> toFloat(Between(raw, open, close).value) == r
  {
    match Between(raw, open, close)
    case None => None
    case Some(text) => toFloat(text)
  }

  /** The `try` block of the loop: the temperature after the first `Temp: `
      up to `°C`, the humidity after `Hum: ` up to `%`, lux and direction from
      the first match of the lux pattern, and the pH after `pH: ` up to the
      next `pH`. `None` where any step raises. The direction a stored entry
      carries is a non-empty ASCII word. */
  function ExtractFields(raw: string, toFloat: string -> Option<real>): (r: Option<Fields>)
    ensures r.Some? ==> |r.value.direction| > 0 && forall k :: 0 <= k < |r.value.direction| ==> IsWordChar(r.value.direction[k])
  {
    var temp := FloatBetween(raw, "Temp: ", "°C", toFloat);
    var hum := FloatBetween(raw, "Hum: ", "%", toFloat);
    var luxMatch := LuxSearch(raw);
    var lux := if luxMatch.Some? then toFloat(luxMatch.value.number) else None;
    var pH := FloatBetween(raw, "pH: ", "pH", toFloat);
    if temp.Some? && hum.Some? && lux.Some? && pH.Some? then
      Some(Fields(temp.value, hum.value, lux.value, luxMatch.value.direction, pH.value))
    else None
  }

  /** Extraction succeeds exactly when every step succeeds: both texts are
      found and convert, the lux pattern matches somewhere and its number
      converts, and the pH text is found and converts. Each field is then the
      value its rule gives, lux and direction from the leftmost match. */
  lemma ExtractFieldsMeaning(raw: string, toFloat: string -> Option<real>)
    ensures var r := ExtractFields(raw, toFloat);
      r.Some? <==>
        && FloatBetween(raw, "Temp: ", "°C", toFloat).Some?
        && FloatBetween(raw, "Hum: ", "%", toFloat).Some?
        && LuxSearch(raw).Some? && toFloat(LuxSearch(raw).value.number).Some?
        && FloatBetween(raw, "pH: ", "pH", toFloat).Some?
    ensures var r := ExtractFields(raw, toFloat);
      r.Some? ==>
        && Some(r.value.temperature) == FloatBetween(raw, "Temp: ", "°C", toFloat)
        && Some(r.value.humidity) == FloatBetween(raw, "Hum: ", "%", toFloat)
        && Some(r.value.lux) == toFloat(LuxSearch(raw).value.number)
        && r.value.direction == LuxSearch(raw).value.direction
        && Some(r.value.pH) == FloatBetween(raw, "pH: ", "pH", toFloat)
  {
  }

  /** A line whose sensor text holds no `Temp: ` cannot be stored, whatever
      else it holds. */
  lemma NoTemperatureNoEntry(raw: string, toFloat: string -> Option<real>)
    requires IndexOf(raw, "Temp: ").None?
    ensures ExtractFields(raw, toFloat).None?
  {
    ExtractFieldsMeaning(raw, toFloat);
  }

  // ---------------------------------------------------------------- lines

  /** One JSON record of a device's log. */
  datatype Entry = Entry(timestamp: string, device: string, temperature: real, humidity: real,
                         lux: real, direction: string, pH: real)

  /** What the loop does with one received line. */
  datatype LineOutcome =
    | Skipped                          // empty, or not three `|`-separated parts
    | UnknownDevice(device: string)    // printed and ignored
    | ParseError(line: string)         // appended to the error log
    | Stored(device: string, entry: Entry)

  /** The fate of the line `received` read at `now`: only its stripped text matters. */
  function Classify(received: string, now: DateTime, toFloat: string -> Option<real>): (o: LineOutcome)
    ensures o.Stored? ==> o.device in ValidDevices && o.entry.device == o.device
    ensures o.Stored? ==> o.entry.timestamp == FormatTimestamp(now)
    ensures o.ParseError? ==> o.line == Strip(received)
  {
    ClassifyLine(Strip(received), now, toFloat)
  }

  /** The fate of an already stripped line. */
  function ClassifyLine(line: string, now: DateTime, toFloat: string -> Option<real>): (o: LineOutcome)
    ensures o.Stored? ==> o.device in ValidDevices && o.entry.device == o.device
    ensures o.Stored? ==> o.entry.timestamp == FormatTimestamp(now)
    ensures o.ParseError? ==> o.line == line
  {
    var parts := Split(line, "|");
    if line == "" || |parts| != 3 then Skipped
    else ClassifyRecord(line, parts, now, toFloat)
  }

  /** The outcome of a line of three parts: the device is checked, then the
      fields are extracted from the third part. */
  function ClassifyRecord(line: string, parts: seq<string>, now: DateTime, toFloat: string -> Option<real>): (o: LineOutcome)
    requires |parts| == 3
    ensures o.Stored? ==> o.device in ValidDevices && o.entry.device == o.device
    ensures o.Stored? ==> o.entry.timestamp == FormatTimestamp(now)
    ensures o.ParseError? ==> o.line == line
    ensures !o.Skipped?
  {
    var device := Strip(parts[1]);
    if device !in ValidDevices then UnknownDevice(device)
    else RecordOutcome(line, device, ExtractFields(parts[2], toFloat), now)
  }

  /** For a valid device: a parse error when the fields could not be
      extracted, otherwise an entry holding them, stamped with `now`. */
  function RecordOutcome(line: string, device: string, fields: Option<Fields>, now: DateTime): (o: LineOutcome)
    ensures o.Stored? || o.ParseError?
    ensures o.ParseError? <==> fields.None?
    ensures o.Stored? ==> o.device == device && o.entry.device == device && o.entry.timestamp == FormatTimestamp(now)
    ensures o.ParseError? ==> o.line == line
  {
    match fields
    case None => ParseError(line)
    case Some(f) =>
      Stored(device, Entry(FormatTimestamp(now), device, f.temperature, f.humidity, f.lux, f.direction, f.pH))
  }

  /** A line is skipped exactly when its stripped text is not three
      `|`-separated parts (an empty line is one part); otherwise the device is
      the stripped middle part, a device outside the valid set is ignored, a
      third part whose fields cannot be extracted is a parse error, and any
      other line stores an entry holding the extracted fields. */
  lemma ClassifyMeaning(received: string, now: DateTime, toFloat: string -> Option<real>)
    ensures var o := Classify(received, now, toFloat);
      o.Skipped? <==> |Split(Strip(received), "|")| != 3
    ensures var o := Classify(received, now, toFloat);
      var parts := Split(Strip(received), "|");
      |parts| == 3 ==>
        && (o.UnknownDevice? <==> Strip(parts[1]) !in ValidDevices)
        && (o.UnknownDevice? ==> o.device == Strip(parts[1]))
        && (o.ParseError? <==> Strip(parts[1]) in ValidDevices && ExtractFields(parts[2], toFloat).None?)
        && (o.Stored? ==> o.device == Strip(parts[1]))
    ensures var o := Classify(received, now, toFloat);
      o.Stored? ==>
        var f := ExtractFields(Split(Strip(received), "|")[2], toFloat).value;
        o.entry == Entry(FormatTimestamp(now), o.device, f.temperature, f.humidity, f.lux, f.direction, f.pH)
  {
    if Strip(received) == "" {
      assert Split("", "|") == [""];
    }
  }

  /** The three parts and the device are read from the stripped line, so
      surrounding whitespace never changes a line's fate. */
  lemma ClassifyIgnoresSurroundingSpace(received: string, now: DateTime, toFloat: string -> Option<real>)
    ensures Classify(Strip(received), now, toFloat) == Classify(received, now, toFloat)
  {
    StripIdempotent(received);
  }

  // ---------------------------------------------------------------- state

  /** `sensor_data_map`, the error log's lines, and the content last written
      to each log file. */
  datatype ReaderState = ReaderState(logs: map<string, seq<Entry>>, errors: seq<string>, files: map<string, seq<Entry>>)

  /** A device's list; a device not yet seen has none. */
  function LogOf(logs: map<string, seq<Entry>>, device: string): seq<Entry>
  {
    if device in logs then logs[device] else []
  }

  /** The effect of one line: a stored entry is appended to its device's list
      and the whole list is written to the device's file of the day; a parse
      error adds one line to the error log; anything else changes nothing. */
  function Apply(s: ReaderState, o: LineOutcome, now: DateTime): ReaderState
  {
    match o
    case Stored(device, entry) =>
      var list := LogOf(s.logs, device) + [entry];
      ReaderState(s.logs[device := list], s.errors, s.files[FileName(device, now.day) := list])
    case ParseError(line) => s.(errors := s.errors + [ErrorLine(now, line)])
    case _ => s
  }

  /** What the reader keeps true: only valid devices have lists, every list
      holds only its device's entries, and a device's file of any day holds
      a prefix of its list (the list as it was when that file was written). */
  ghost predicate Valid(s: ReaderState)
  {
    && (forall d :: d in s.logs ==> d in ValidDevices && s.logs[d] != [])
    && (forall d, k :: d in s.logs && 0 <= k < |s.logs[d]| ==> s.logs[d][k].device == d)
    && (forall d, day :: FileName(d, day) in s.files ==> s.files[FileName(d, day)] <= LogOf(s.logs, d))
  }

  lemma ApplyKeepsValid(s: ReaderState, o: LineOutcome, now: DateTime)
    requires Valid(s)
    requires o.Stored? ==> o.device in ValidDevices && o.entry.device == o.device
    ensures Valid(Apply(s, o, now))
  {
    if o.Stored? {
      var t := Apply(s, o, now);
      forall d, day | FileName(d, day) in t.files
        ensures t.files[FileName(d, day)] <= LogOf(t.logs, d)
      {
        FileNameInjective(d, day, o.device, now.day);
      }
    }
  }

  /** A stored line leaves its device's file of the day holding the device's
      whole list in arrival order, entries of earlier days included, with the
      new entry last; other devices' lists are untouched. */
  lemma StoredLineWritesWholeList(s: ReaderState, device: string, entry: Entry, now: DateTime)
    ensures var t := Apply(s, Stored(device, entry), now);
      && t.files[FileName(device, now.day)] == LogOf(t.logs, device) == LogOf(s.logs, device) + [entry]
      && (forall d :: d != device ==> LogOf(t.logs, d) == LogOf(s.logs, d))
      && t.errors == s.errors
  {
  }

  // ---------------------------------------------------------------- runs

  /** The fates of a sequence of lines, the `k`-th read at `times[k]`. */
  function Outcomes(lines: seq<string>, times: seq<DateTime>, toFloat: string -> Option<real>): (os: seq<LineOutcome>)
    requires |lines| == |times|
    ensures |os| == |lines| && Sound(os)
  {
    seq(|lines|, k requires 0 <= k < |lines| => Classify(lines[k], times[k], toFloat))
  }

  /** Every stored outcome names a valid device and carries its entry. */
  predicate Sound(os: seq<LineOutcome>)
  {
    forall k :: 0 <= k < |os| && os[k].Stored? ==> os[k].device in ValidDevices && os[k].entry.device == os[k].device
  }

  /** The state after applying the outcomes `os`, the `k`-th at `times[k]`. */
  function RunAll(s: ReaderState, os: seq<LineOutcome>, times: seq<DateTime>): ReaderState
    requires |os| == |times|
  {
    if os == [] then s
    else
      var k := |os| - 1;
      Apply(RunAll(s, os[..k], times[..k]), os[k], times[k])
  }

  /** Running one more outcome applies it to the state before it. */
  lemma RunAllSnoc(s: ReaderState, os: seq<LineOutcome>, times: seq<DateTime>, i: nat)
    requires |os| == |times| && i < |os|
    ensures RunAll(s, os[..i + 1], times[..i + 1]) == Apply(RunAll(s, os[..i], times[..i]), os[i], times[i])
  {
    assert os[..i + 1][..i] == os[..i] && times[..i + 1][..i] == times[..i];
  }

  /** The entries the outcomes store for `device`, in arrival order. */
  function StoredFor(os: seq<LineOutcome>, device: string): (r: seq<Entry>)
    requires Sound(os)
    ensures forall k :: 0 <= k < |r| ==> r[k].device == device
    ensures r != [] ==> device in ValidDevices
  {
    if os == [] then []
    else
      var k := |os| - 1;
      var o := os[k];
      StoredFor(os[..k], device) + (if o.Stored? && o.device == device then [o.entry] else [])
  }

  /** The error-log lines the outcomes produce, in arrival order. */
  function ErrorsFor(os: seq<LineOutcome>, times: seq<DateTime>): seq<string>
    requires |os| == |times|
  {
    if os == [] then []
    else
      var k := |os| - 1;
      ErrorsFor(os[..k], times[..k]) + (if os[k].ParseError? then [ErrorLine(times[k], os[k].line)] else [])
  }

  /** One line's effect on one device's list and on the error log. */
  lemma ApplyStep(s: ReaderState, o: LineOutcome, now: DateTime, device: string)
    ensures LogOf(Apply(s, o, now).logs, device)
      == LogOf(s.logs, device) + (if o.Stored? && o.device == device then [o.entry] else [])
    ensures device in Apply(s, o, now).logs <==> device in s.logs || (o.Stored? && o.device == device)
    ensures Apply(s, o, now).errors == s.errors + (if o.ParseError? then [ErrorLine(now, o.line)] else [])
  {
  }

  /** Lists only grow at the end: after any run each device's list is its old
      list followed by exactly the entries the run stored for it, in arrival
      order, and it exists afterwards exactly when it did before or the run
      stored something for it. */
  lemma {:induction false} RunAppends(s: ReaderState, os: seq<LineOutcome>, times: seq<DateTime>, device: string)
    requires |os| == |times| && Sound(os)
    ensures LogOf(RunAll(s, os, times).logs, device) == LogOf(s.logs, device) + StoredFor(os, device)
    ensures device in RunAll(s, os, times).logs <==> device in s.logs || StoredFor(os, device) != []
  {
    if os != [] {
      var k := |os| - 1;
      var prev := RunAll(s, os[..k], times[..k]);
      RunAppends(s, os[..k], times[..k], device);
      ApplyStep(prev, os[k], times[k], device);
      var added := if os[k].Stored? && os[k].device == device then [os[k].entry] else [];
      assert StoredFor(os, device) == StoredFor(os[..k], device) + added;
      assert LogOf(s.logs, device) + StoredFor(os[..k], device) + added
          == LogOf(s.logs, device) + (StoredFor(os[..k], device) + added);
    }
  }

  /** The error log only grows at the end, by the run's errors in arrival order. */
  lemma {:induction false} RunLogsErrors(s: ReaderState, os: seq<LineOutcome>, times: seq<DateTime>)
    requires |os| == |times|
    ensures RunAll(s, os, times).errors == s.errors + ErrorsFor(os, times)
  {
    if os != [] {
      var k := |os| - 1;
      RunLogsErrors(s, os[..k], times[..k]);
    }
  }

  /** Every run keeps the reader's invariant. */
  lemma {:induction false} RunKeepsValid(s: ReaderState, os: seq<LineOutcome>, times: seq<DateTime>)
    requires |os| == |times| && Sound(os) && Valid(s)
    ensures Valid(RunAll(s, os, times))
  {
    if os != [] {
      var k := |os| - 1;
      RunKeepsValid(s, os[..k], times[..k]);
      ApplyKeepsValid(RunAll(s, os[..k], times[..k]), os[k], times[k]);
    }
  }

  /** The list is never reset at midnight: two readings of one device, the
      second on a later day, both end up in the second day's file, while the
      first day's file keeps only what it had. */
  lemma NoResetOnNewDay(s: ReaderState, device: string, e1: Entry, t1: DateTime, e2: Entry, t2: DateTime)
    requires t1.day != t2.day
    ensures var t := RunAll(s, [Stored(device, e1), Stored(device, e2)], [t1, t2]);
      && FileName(device, t2.day) in t.files && t.files[FileName(device, t2.day)] == LogOf(s.logs, device) + [e1, e2]
      && FileName(device, t1.day) in t.files && t.files[FileName(device, t1.day)] == LogOf(s.logs, device) + [e1]
  {
    var os := [Stored(device, e1), Stored(device, e2)];
    assert os[..1] == [Stored(device, e1)] && [t1, t2][..1] == [t1];
    assert os[..1][..0] == [] && [t1][..0] == [];
    var s1 := Apply(s, Stored(device, e1), t1);
    assert RunAll(s, os[..1], [t1]) == s1;
    var s2 := Apply(s1, Stored(device, e2), t2);
    assert RunAll(s, os, [t1, t2]) == s2;
    FileNameInjective(device, t1.day, device, t2.day);
    assert s2.files == s.files[FileName(device, t1.day) := LogOf(s.logs, device) + [e1]]
                              [FileName(device, t2.day) := LogOf(s.logs, device) + [e1] + [e2]];
  }

  // ---------------------------------------------------------------- the reader

  class Reader {
    /** `sensor_data_map`. */
    var sensorDataMap: map<string, seq<Entry>>
    /** The lines appended to `parse_errors.log`. */
    var errorLog: seq<string>
    /** The content last dumped to each device's daily JSON file. */
    var files: map<string, seq<Entry>>

    function State(): ReaderState
      reads this
    {
      ReaderState(sensorDataMap, errorLog, files)
    }

    constructor()
      ensures State() == ReaderState(map[], [], map[]) && Valid(State())
    {
      sensorDataMap := map[];
      errorLog := [];
      files := map[];
    }

    /** One pass of the `while True` loop for the line `received` read at `now`. */
    method ProcessLine(received: string, now: DateTime, toFloat: string -> Option<real>)
      modifies this`sensorDataMap, this`errorLog, this`files
      ensures State() == Apply(old(State()), Classify(received, now, toFloat), now)
    {
      var line := Strip(received);
      ghost var outcome := ClassifyLine(line, now, toFloat);
      assert Classify(received, now, toFloat) == outcome;
      if line == "" {
        assert outcome == Skipped;
        return;
      }
      var parts := Split(line, "|");
      if |parts| != 3 {
        assert outcome == Skipped;
        return;
      }
      assert outcome == ClassifyRecord(line, parts, now, toFloat);
      HandleRecord(line, parts, now, toFloat);
    }

    /** The body of `if len(parts) == 3`: check the device, extract the
      fields, then log the line or store the entry. */
    method HandleRecord(line: string, parts: seq<string>, now: DateTime, toFloat: string -> Option<real>)
      requires |parts| == 3
      modifies this`sensorDataMap, this`errorLog, this`files
      ensures State() == Apply(old(State()), ClassifyRecord(line, parts, now, toFloat), now)
    {
      var device := Strip(parts[1]);
      if device !in ValidDevices {
        assert ClassifyRecord(line, parts, now, toFloat) == UnknownDevice(device);
        return;
      }
      var sensorDataRaw := parts[2];
      var fields := ExtractFields(sensorDataRaw, toFloat);
      StoreReading(line, device, fields, now);
    }

    /** The rest of the `try` block and its `except`: log the line when
      extraction failed, otherwise store the entry. */
    method StoreReading(line: string, device: string, fields: Option<Fields>, now: DateTime)
      modifies this`sensorDataMap, this`errorLog, this`files
      ensures State() == Apply(old(State()), RecordOutcome(line, device, fields, now), now)
    {
      var formattedTimestamp := FormatTimestamp(now);
      if fields.None? {
        LogParseError(formattedTimestamp, line);
        return;
      }
      var f := fields.value;
      var entry := Entry(formattedTimestamp, device, f.temperature, f.humidity, f.lux, f.direction, f.pH);
      Append(device, entry, now);
    }

    /** The `except` branch: one line added to the error log. */
    method LogParseError(formattedTimestamp: string, line: string)
      modifies this`errorLog
      ensures errorLog == old(errorLog) + ["[" + formattedTimestamp + "] " + line + "\n"]
    {
      errorLog := errorLog + ["[" + formattedTimestamp + "] " + line + "\n"];
    }

    /** Append `entry` to its device's list, creating the list if absent,
      and dump the whole list to the device's file of the day. */
    method Append(device: string, entry: Entry, now: DateTime)
      modifies this`sensorDataMap, this`files
      ensures State() == Apply(old(State()), Stored(device, entry), now)
    {
      if device !in sensorDataMap {
        sensorDataMap := sensorDataMap[device := []];
      }
      sensorDataMap := sensorDataMap[device := sensorDataMap[device] + [entry]];
      var jsonFilename := FileName(device, now.day);
      files := files[jsonFilename := sensorDataMap[device]];
    }

    /** The loop over a sequence of received lines, the `k`-th read at `times[k]`. */
    method Run(lines: seq<string>, times: seq<DateTime>, toFloat: string -> Option<real>)
      requires |lines| == |times|
      modifies this`sensorDataMap, this`errorLog, this`files
      ensures State() == RunAll(old(State()), Outcomes(lines, times, toFloat), times)
    {
      ghost var os := Outcomes(lines, times, toFloat);
      for i := 0 to |lines|
        invariant State() == RunAll(old(State()), os[..i], times[..i])
      {
        RunAllSnoc(old(State()), os, times, i);
        assert os[i] == Classify(lines[i], times[i], toFloat);
        ProcessLine(lines[i], times[i], toFloat);
      }
      assert os[..|lines|] == os && times[..|times|] == times;
    }
  }
}
