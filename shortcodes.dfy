/** The `[liturgical_calendar]` and `[liturgical_banner]` shortcodes: the
    date attribute, the `show` whitelist, the markup of each field, and the
    error block that replaces everything when the date or the fetch fails. */
module Shortcodes {
  import opened Wrappers
  import opened Text
  import opened Dates
  import opened Payload
  import opened Html
  import opened Api
  import opened Banner

  /** The fields `[liturgical_calendar]` knows, in their default order. */
  const AvailableFields: seq<string> :=
    ["date", "day_name", "season", "color", "year", "collect", "readings", "readings_full", "celebration"]

  const InvalidDateAttribute := WpError("invalid_date", "Data inválida. Use: today, last_sunday, next_sunday ou Y-m-d")

  /** `shortcode_atts`: the given attribute, or its default when absent. */
  function Attr(atts: map<string, string>, name: string, default: string): string
  {
    if name in atts then atts[name] else default
  }

  // ---------------------------------------------------------------------
  // The date attribute

  /** `resolve_date`: the three keywords give the helpers' dates; any other
      text is accepted exactly when it is a canonical `YYYY-MM-DD` date. */
  function ResolveDate(attr: string, today: Date): (r: Result<string, WpError>)
    requires Valid(today)
    ensures attr == "today" ==> r == Success(TodayDate(today))
    ensures attr == "last_sunday" ==> r == Success(LastSundayDate(today))
    ensures attr == "next_sunday" ==> r == Success(NextSundayDate(today))
    ensures attr != "today" && attr != "last_sunday" && attr != "next_sunday" ==>
      (r.Success? <==> IsCanonical(attr))
      && (r.Success? ==> r.value == attr)
      && (r.Failure? ==> r.error == InvalidDateAttribute)
  {
    if attr == "today" then Success(TodayDate(today))
    else if attr == "last_sunday" then Success(LastSundayDate(today))
    else if attr == "next_sunday" then Success(NextSundayDate(today))
    else
      RoundTripsIffCanonical(attr);
      if RoundTrips(attr) then Success(attr) else Failure(InvalidDateAttribute)
  }

  /** The length of a join is at least that of its first part. */
  lemma JoinHead(parts: seq<string>, glue: string)
    requires |parts| >= 1
    ensures |Join(parts, glue)| >= |parts[0]|
  {
  }

  /** Days from the start of a year stay inside that year. */
  lemma DayNumberInYear(d: Date)
    requires Valid(d)
    ensures DaysBeforeYear(d.year) <= DayNumber(d) < DaysBeforeYear(d.year + 1)
  {
    YearLength(d.year);
  }

  /** Later years start later. */
  lemma {:induction false} YearsInOrder(a: int, b: int)
    requires a <= b
    ensures DaysBeforeYear(a) <= DaysBeforeYear(b)
    decreases b - a
  {
    if a < b {
      YearLength(a);
      YearsInOrder(a + 1, b);
    }
  }

  lemma JoinThree(a: string, b: string, c: string)
    ensures Join([a, b, c], "-") == a + "-" + b + "-" + c
  {
    assert Join([c], "-") == c;
    assert Join([b, c], "-") == b + "-" + c by { assert [b, c][1..] == [c]; }
    assert [a, b, c][1..] == [b, c];
  }

  /** A day of a year from 0 on formats as three `-`-free parts. */
  lemma FormatSplits(d: Date)
    requires Valid(d) && d.year >= 0
    ensures Split(Format(d), '-') == [FormatYear(d.year), Fixed(d.month, 2), Fixed(d.day, 2)]
  {
    var y, m, dd := FormatYear(d.year), Fixed(d.month, 2), Fixed(d.day, 2);
    Pad4Value(d.year);
    assert '-' !in y;
    assert '-' !in m;
    assert '-' !in dd;
    var parts := [y, m, dd];
    JoinThree(y, m, dd);
    SplitJoin(parts, '-');
  }

  /** A canonical date is three `-`-free parts. */
  lemma CanonicalSplits(s: string)
    requires IsCanonical(s)
    ensures |Split(s, '-')| == 3
  {
    var y, m, d := s[..4], s[5..7], s[8..];
    assert '-' !in y;
    assert '-' !in m;
    assert '-' !in d;
    var parts := [y, m, d];
    JoinThree(y, m, d);
    assert s == y + "-" + m + "-" + d;
    SplitJoin(parts, '-');
  }

  /** Every date `resolve_date` accepts has the three parts `get_calendar`
      needs, so the client never answers it with its own `invalid_date`
      (from year 1 on, where no Sunday falls before year 0). */
  lemma {:induction false} ResolvedDateHasThreeParts(attr: string, today: Date)
    requires Valid(today) && today.year >= 1
    ensures ResolveDate(attr, today).Success? ==> |Split(ResolveDate(attr, today).value, '-')| == 3
  {
    var r := ResolveDate(attr, today);
    if attr == "today" {
      FormatSplits(today);
    } else if attr == "last_sunday" {
      var s := LastSunday(today);
      DayNumberInYear(s);
      DayNumberInYear(today);
      YearsInOrder(1, today.year);
      if s.year < 0 {
        YearsInOrder(s.year + 1, 0);
      }
      FormatSplits(s);
    } else if attr == "next_sunday" {
      var s := NextSunday(today);
      DayNumberInYear(s);
      DayNumberInYear(today);
      if s.year < today.year {
        YearsInOrder(s.year + 1, today.year);
      }
      FormatSplits(s);
    } else if r.Success? {
      CanonicalSplits(attr);
    }
  }

  // ---------------------------------------------------------------------
  // The show attribute

  /** The trimmed, comma-separated items of `show` that name a field. */
  function RequestedFields(show: string): seq<string>
  {
    Intersect(TrimAll(Split(show, ',')), AvailableFields)
  }

  /** `parse_show_attribute`: the requested fields, or all of them when the
      attribute is empty or names none. */
  function ParseShow(show: string): (fields: seq<string>)
    ensures |fields| >= 1
    ensures forall f :: f in fields ==> f in AvailableFields
    ensures Empty(Some(show)) || |RequestedFields(show)| == 0 ==> fields == AvailableFields
    ensures !Empty(Some(show)) && |RequestedFields(show)| > 0 ==> fields == RequestedFields(show)
  {
    if Empty(Some(show)) then AvailableFields
    else
      var valid := RequestedFields(show);
      if |valid| > 0 then valid else AvailableFields
  }

  /** Each field is shown as often as it is named, and no unknown item is
      shown, when at least one item names a field. */
  lemma {:induction false} ShowKeepsRepetitions(show: string, f: string)
    requires !Empty(Some(show)) && |RequestedFields(show)| > 0
    ensures multiset(ParseShow(show))[f]
      == if f in AvailableFields then multiset(TrimAll(Split(show, ',')))[f] else 0
  {
    IntersectCount(TrimAll(Split(show, ',')), AvailableFields, f);
  }

  /** A name of at least four characters, without commas and without
      white space at either end. */
  predicate Plain(f: string)
  {
    |f| >= 4 && ',' !in f && !IsSpace(f[0]) && !IsSpace(f[|f| - 1])
  }

  lemma FieldNamesPlain()
    ensures forall f :: f in AvailableFields ==> Plain(f)
  {
    assert Plain("date") && Plain("day_name") && Plain("season");
    assert Plain("color") && Plain("year") && Plain("collect");
    assert Plain("readings") && Plain("readings_full") && Plain("celebration");
  }

  /** A comma-separated list of known fields is read back exactly: same
      fields, same order, same repetitions. */
  lemma {:induction false} ShowRoundTrip(fields: seq<string>)
    requires |fields| >= 1
    requires forall i :: 0 <= i < |fields| ==> fields[i] in AvailableFields
    ensures ParseShow(Join(fields, ",")) == fields
  {
    var show := Join(fields, ",");
    FieldNamesPlain();
    JoinHead(fields, ",");
    assert !Empty(Some(show)) by {
      assert |fields[0]| >= 4;
    }
    SplitJoin(fields, ',');
    TrimAllUnspaced(fields);
    IntersectAllAllowed(fields, AvailableFields);
  }

  // ---------------------------------------------------------------------
  // The markup of the calendar

  /** The wrapper's colour class, when the liturgical colour is not empty. */
  function ColorClass(data: Calendar): Option<string>
  {
    if !Empty(data.liturgicalColor) then Some(data.liturgicalColor.value) else None
  }

  /** `get_day_name`: the first non-empty of the Sunday's name, the
      celebration's name and the weekday's name, or the empty text. */
  function DayName(data: Calendar): (name: string)
    ensures name == "" <==> Empty(data.sundayName) && Empty(CelebrationName(data)) && Empty(data.dayOfWeek)
    ensures name != "" ==> !Empty(Some(name))
    ensures !Empty(data.sundayName) ==> name == data.sundayName.value
    ensures Empty(data.sundayName) && !Empty(CelebrationName(data)) ==> name == CelebrationName(data).value
  {
    if !Empty(data.sundayName) then data.sundayName.value
    else if !Empty(CelebrationName(data)) then CelebrationName(data).value
    else if !Empty(data.dayOfWeek) then data.dayOfWeek.value
    else ""
  }

  function CollectHtml(c: Collect): seq<Fragment>
  {
    [CollectOpen]
    + (if !Empty(c.title) then [CollectTitle(c.title.value, if !Empty(c.subtitle) then Some(c.subtitle.value) else None)] else [])
    + (if !Empty(c.text) then [CollectText(c.text.value)] else [])
    + [CollectClose]
  }

  function CollectsFrom(cs: seq<Collect>): seq<Fragment>
  {
    if |cs| == 0 then [] else CollectsFrom(cs[..|cs| - 1]) + CollectHtml(cs[|cs| - 1])
  }

  /** `render_collects`: nothing without collects, otherwise one block per collect. */
  function CollectsHtml(data: Calendar): seq<Fragment>
  {
    if |data.collect| == 0 then [] else [CollectsOpen] + CollectsFrom(data.collect) + [CollectsClose]
  }

  function ReadingTitle(k: ReadingKey): string
  {
    match k
    case FirstReading => "Primeira Leitura"
    case Psalm => "Salmo"
    case SecondReading => "Segunda Leitura"
    case Gospel => "Evangelho"
  }

  function VerseLines(vs: seq<Verse>): (out: seq<Fragment>)
    ensures |out| == |vs|
    ensures forall i :: 0 <= i < |vs| ==> out[i] == VerseLine(vs[i].number, vs[i].text)
  {
    if |vs| == 0 then [] else VerseLines(vs[..|vs| - 1]) + [VerseLine(vs[|vs| - 1].number, vs[|vs| - 1].text)]
  }

  /** One reading: nothing when it is empty; otherwise its label and
      reference, and its verses when `full` and it has any. */
  function ReadingHtml(rs: Readings, k: ReadingKey, full: bool): seq<Fragment>
  {
    if EmptyReading(ReadingAt(rs, k)) then [] else ReadingBlock(k, ReadingAt(rs, k).value, full)
  }

  /** A non-empty reading: its label and reference, its verse block, and
      its closing fragment. */
  function ReadingBlock(k: ReadingKey, r: Reading, full: bool): seq<Fragment>
  {
    [ReadingOpen(k, ReadingTitle(k), r.reference.GetOr(""))] + VerseBlock(r.verses, full) + [ReadingClose]
  }

  /** The verses of a reading, shown only in full form and when it has any. */
  function VerseBlock(vs: seq<Verse>, full: bool): seq<Fragment>
  {
    if full && |vs| > 0 then [VersesOpen] + VerseLines(vs) + [VersesClose] else []
  }

  function ReadingsFrom(rs: Readings, keys: seq<ReadingKey>, full: bool): seq<Fragment>
  {
    if |keys| == 0 then [] else ReadingsFrom(rs, keys[..|keys| - 1], full) + ReadingHtml(rs, keys[|keys| - 1], full)
  }

  /** `render_readings`. */
  function ReadingsHtml(data: Calendar, full: bool): seq<Fragment>
  {
    if NoReadings(data) then []
    else [ReadingsOpen] + ReadingsFrom(data.readings.value, ReadingOrder, full) + [ReadingsClose]
  }

  /** `render_celebration`. */
  function CelebrationHtml(data: Calendar): seq<Fragment>
  {
    if NoCelebration(data) then []
    else
      var c := data.celebration.value;
      [CelebrationOpen]
      + (if !Empty(c.name) then [CelebrationNameLine(c.name.value)] else [])
      + (if !Empty(c.description) then [CelebrationDescriptionLine(c.description.value)] else [])
      + (if !Empty(c.color) then [CelebrationColorLine(c.color.value)] else [])
      + [CelebrationClose]
  }

  /** `render_field`. */
  function FieldHtml(field: string, data: Calendar): seq<Fragment>
  {
    match field
    case "date" => if !Empty(data.date) then [DateLine(data.date.value)] else []
    case "day_name" => if !Empty(Some(DayName(data))) then [DayNameLine(DayName(data))] else []
    case "season" => if !Empty(data.liturgicalSeason) then [SeasonLine(data.liturgicalSeason.value)] else []
    case "color" => if !Empty(data.liturgicalColor) then [ColorLine(data.liturgicalColor.value)] else []
    case "year" => if !Empty(data.liturgicalYear) then [YearLine(data.liturgicalYear.value)] else []
    case "collect" => CollectsHtml(data)
    case "readings" => ReadingsHtml(data, false)
    case "readings_full" => ReadingsHtml(data, true)
    case "celebration" => CelebrationHtml(data)
    case _ => []
  }

  /** The markup of each field, one entry per field. */
  function FieldParts(fields: seq<string>, data: Calendar): (parts: seq<seq<Fragment>>)
    ensures |parts| == |fields|
  {
    seq(|fields|, i requires 0 <= i < |fields| => FieldHtml(fields[i], data))
  }

  function FieldsFrom(fields: seq<string>, data: Calendar): seq<Fragment>
  {
    Flatten(FieldParts(fields, data))
  }

  /** `render_calendar`: the wrapper around the fields, in the given order. */
  function CalendarHtml(data: Calendar, fields: seq<string>): seq<Fragment>
  {
    [CalendarOpen(ColorClass(data))] + FieldsFrom(fields, data) + [CalendarClose]
  }

  /** `render_error`. */
  function ErrorHtml(message: string): seq<Fragment>
  {
    [ErrorBlock(message)]
  }

  // ---------------------------------------------------------------------
  // Properties of the markup

  /** `date`, `season`, `color` and `year` show nothing when their value is
      empty and one line with it otherwise; `day_name` follows the fallback
      chain and shows nothing when all three names are empty. */
  lemma FieldSuppression(data: Calendar)
    ensures FieldHtml("date", data) == (if Empty(data.date) then [] else [DateLine(data.date.value)])
    ensures FieldHtml("season", data) == (if Empty(data.liturgicalSeason) then [] else [SeasonLine(data.liturgicalSeason.value)])
    ensures FieldHtml("color", data) == (if Empty(data.liturgicalColor) then [] else [ColorLine(data.liturgicalColor.value)])
    ensures FieldHtml("year", data) == (if Empty(data.liturgicalYear) then [] else [YearLine(data.liturgicalYear.value)])
    ensures FieldHtml("day_name", data) == []
      <==> Empty(data.sundayName) && Empty(CelebrationName(data)) && Empty(data.dayOfWeek)
    ensures FieldHtml("collect", data) == [] <==> |data.collect| == 0
  {
  }

  /** The fields' markup is the concatenation of each field's markup, in
      the order the fields were given. */
  /** The celebration block appears unless the celebration is empty, and
      shows each of its name, description and colour exactly when that value
      is non-empty. */
  lemma CelebrationRules(data: Calendar)
    ensures CelebrationHtml(data) == [] <==> NoCelebration(data)
    ensures !NoCelebration(data) ==>
      var out := CelebrationHtml(data);
      var c := data.celebration.value;
      out[0] == CelebrationOpen && out[|out| - 1] == CelebrationClose
      && (CelebrationNameLine(c.name.GetOr("")) in out <==> !Empty(c.name))
      && (CelebrationDescriptionLine(c.description.GetOr("")) in out <==> !Empty(c.description))
      && (CelebrationColorLine(c.color.GetOr("")) in out <==> !Empty(c.color))
  {
  }

  lemma FieldsFromAppend(a: seq<string>, b: seq<string>, data: Calendar)
    ensures FieldsFrom(a + b, data) == FieldsFrom(a, data) + FieldsFrom(b, data)
  {
    assert FieldParts(a + b, data) == FieldParts(a, data) + FieldParts(b, data);
    FlattenAppend(FieldParts(a, data), FieldParts(b, data));
  }

  /** No field's markup holds an error block. */
  lemma FieldHasNoError(f: string, data: Calendar)
    ensures NoError(FieldHtml(f, data))
  {
    match f
    case "collect" => CollectsHaveNoError(data.collect);
    case "readings" => ReadingsHtmlHasNoError(data, false);
    case "readings_full" => ReadingsHtmlHasNoError(data, true);
    case _ =>
  }

  lemma ReadingsHtmlHasNoError(data: Calendar, full: bool)
    ensures NoError(ReadingsHtml(data, full))
  {
    if !NoReadings(data) {
      var body := ReadingsFrom(data.readings.value, ReadingOrder, full);
      ReadingsHaveNoError(data, ReadingOrder, full);
      NoErrorConcat([ReadingsOpen], body);
      NoErrorConcat([ReadingsOpen] + body, [ReadingsClose]);
    }
  }

  lemma ReadingHasNoError(rs: Readings, k: ReadingKey, full: bool)
    ensures NoError(ReadingHtml(rs, k, full))
  {
    if !EmptyReading(ReadingAt(rs, k)) {
      var r := ReadingAt(rs, k).value;
      var verses := VerseBlock(r.verses, full);
      if full && |r.verses| > 0 {
        NoErrorConcat([VersesOpen], VerseLines(r.verses));
        NoErrorConcat([VersesOpen] + VerseLines(r.verses), [VersesClose]);
      }
      var open := [ReadingOpen(k, ReadingTitle(k), r.reference.GetOr(""))];
      NoErrorConcat(open, verses);
      NoErrorConcat(open + verses, [ReadingClose]);
    }
  }

  lemma FieldsHaveNoError(fields: seq<string>, data: Calendar)
    ensures NoError(FieldsFrom(fields, data))
  {
    forall i | 0 <= i < |fields|
      ensures NoError(FieldParts(fields, data)[i])
    {
      FieldHasNoError(fields[i], data);
    }
    FlattenNoError(FieldParts(fields, data));
  }

  lemma {:induction false} CollectsHaveNoError(cs: seq<Collect>)
    ensures NoError(CollectsFrom(cs))
  {
    if |cs| > 0 {
      CollectsHaveNoError(cs[..|cs| - 1]);
    }
  }

  lemma {:induction false} ReadingsHaveNoError(data: Calendar, keys: seq<ReadingKey>, full: bool)
    requires data.readings.Some?
    ensures NoError(ReadingsFrom(data.readings.value, keys, full))
  {
    if |keys| > 0 {
      var rs := data.readings.value;
      ReadingsHaveNoError(data, keys[..|keys| - 1], full);
      ReadingHasNoError(rs, keys[|keys| - 1], full);
      NoErrorConcat(ReadingsFrom(rs, keys[..|keys| - 1], full), ReadingHtml(rs, keys[|keys| - 1], full));
    }
  }

  /** The calendar is its wrapper around the fields and holds no error
      block; an error is one error block and nothing else. */
  lemma {:induction false} CalendarOrError(data: Calendar, fields: seq<string>, message: string)
    ensures var out := CalendarHtml(data, fields);
      NoError(out) && out[0] == CalendarOpen(ColorClass(data)) && out[|out| - 1] == CalendarClose
    ensures |ErrorHtml(message)| == 1 && !NoError(ErrorHtml(message))
  {
    FieldsHaveNoError(fields, data);
    assert ErrorHtml(message)[0].ErrorBlock?;
  }

  /** The reading keys shown, in order. */
  function ShownKeys(out: seq<Fragment>): seq<ReadingKey>
  {
    if |out| == 0 then []
    else ShownKeys(out[..|out| - 1]) + (if out[|out| - 1].ReadingOpen? then [out[|out| - 1].key] else [])
  }

  lemma {:induction false} ShownKeysAppend(a: seq<Fragment>, b: seq<Fragment>)
    ensures ShownKeys(a + b) == ShownKeys(a) + ShownKeys(b)
    decreases |b|
  {
    if |b| == 0 {
      assert a + b == a;
    } else {
      var init := b[..|b| - 1];
      assert (a + b)[..|a + b| - 1] == a + init;
      assert (a + b)[|a + b| - 1] == b[|b| - 1];
      ShownKeysAppend(a, init);
      calc {
        ShownKeys(a + b);
        ShownKeys(a + init) + (if b[|b| - 1].ReadingOpen? then [b[|b| - 1].key] else []);
        ShownKeys(a) + ShownKeys(init) + (if b[|b| - 1].ReadingOpen? then [b[|b| - 1].key] else []);
        ShownKeys(a) + (ShownKeys(init) + (if b[|b| - 1].ReadingOpen? then [b[|b| - 1].key] else []));
      }
    }
  }

  /** The markup with its verse blocks removed. */
  function WithoutVerses(out: seq<Fragment>): seq<Fragment>
  {
    if |out| == 0 then []
    else
      var f := out[|out| - 1];
      WithoutVerses(out[..|out| - 1]) + (if f.VersesOpen? || f.VerseLine? || f.VersesClose? then [] else [f])
  }

  lemma {:induction false} WithoutVersesAppend(a: seq<Fragment>, b: seq<Fragment>)
    ensures WithoutVerses(a + b) == WithoutVerses(a) + WithoutVerses(b)
    decreases |b|
  {
    if |b| == 0 {
      assert a + b == a;
    } else {
      var init := b[..|b| - 1];
      assert (a + b)[..|a + b| - 1] == a + init;
      assert (a + b)[|a + b| - 1] == b[|b| - 1];
      WithoutVersesAppend(a, init);
      calc {
        WithoutVerses(a + b);
        WithoutVerses(a + init) + (if b[|b| - 1].VersesOpen? || b[|b| - 1].VerseLine? || b[|b| - 1].VersesClose? then [] else [b[|b| - 1]]);
        WithoutVerses(a) + WithoutVerses(init) + (if b[|b| - 1].VersesOpen? || b[|b| - 1].VerseLine? || b[|b| - 1].VersesClose? then [] else [b[|b| - 1]]);
        WithoutVerses(a) + (WithoutVerses(init) + (if b[|b| - 1].VersesOpen? || b[|b| - 1].VerseLine? || b[|b| - 1].VersesClose? then [] else [b[|b| - 1]]));
      }
    }
  }

  lemma {:induction false} VerseLinesStripped(vs: seq<Verse>)
    ensures WithoutVerses(VerseLines(vs)) == [] && ShownKeys(VerseLines(vs)) == []
  {
    if |vs| > 0 {
      VerseLinesStripped(vs[..|vs| - 1]);
      var last := [VerseLine(vs[|vs| - 1].number, vs[|vs| - 1].text)];
      WithoutVersesAppend(VerseLines(vs[..|vs| - 1]), last);
      ShownKeysAppend(VerseLines(vs[..|vs| - 1]), last);
    }
  }

  /** The keys of the non-empty readings among `keys`, in order. */
  function NonEmptyKeys(rs: Readings, keys: seq<ReadingKey>): seq<ReadingKey>
  {
    if |keys| == 0 then []
    else NonEmptyKeys(rs, keys[..|keys| - 1]) + (if EmptyReading(ReadingAt(rs, keys[|keys| - 1])) then [] else [keys[|keys| - 1]])
  }

  lemma Single(f: Fragment)
    ensures WithoutVerses([f]) == if f.VersesOpen? || f.VerseLine? || f.VersesClose? then [] else [f]
    ensures ShownKeys([f]) == if f.ReadingOpen? then [f.key] else []
  {
    assert [f][..0] == [];
  }

  /** A verse block shows no key and disappears without its verses. */
  lemma VerseBlockParts(vs: seq<Verse>, full: bool)
    ensures WithoutVerses(VerseBlock(vs, full)) == [] && ShownKeys(VerseBlock(vs, full)) == []
  {
    if full && |vs| > 0 {
      VerseBlockStripped(vs);
    }
  }

  lemma VerseBlockStripped(vs: seq<Verse>)
    ensures var block := [VersesOpen] + VerseLines(vs) + [VersesClose];
      WithoutVerses(block) == [] && ShownKeys(block) == []
  {
    VerseLinesStripped(vs);
    Single(VersesOpen);
    Single(VersesClose);
    WithoutVersesAppend([VersesOpen], VerseLines(vs));
    WithoutVersesAppend([VersesOpen] + VerseLines(vs), [VersesClose]);
    ShownKeysAppend([VersesOpen], VerseLines(vs));
    ShownKeysAppend([VersesOpen] + VerseLines(vs), [VersesClose]);
  }

  /** One reading shows its own key only. */
  lemma ReadingKeysPart(rs: Readings, k: ReadingKey, full: bool)
    ensures ShownKeys(ReadingHtml(rs, k, full)) == if EmptyReading(ReadingAt(rs, k)) then [] else [k]
  {
    if !EmptyReading(ReadingAt(rs, k)) {
      var r := ReadingAt(rs, k).value;
      var open := ReadingOpen(k, ReadingTitle(k), r.reference.GetOr(""));
      var verses := VerseBlock(r.verses, full);
      assert ReadingHtml(rs, k, full) == [open] + verses + [ReadingClose];
      VerseBlockParts(r.verses, full);
      Single(open);
      Single(ReadingClose);
      assert ShownKeys(verses) == [];
      ShownKeysAppend([open], verses);
      ShownKeysAppend([open] + verses, [ReadingClose]);
    }
  }

  /** Without its verse block, one reading is its summary form. */
  lemma ReadingVersesPart(rs: Readings, k: ReadingKey, full: bool)
    ensures WithoutVerses(ReadingHtml(rs, k, full)) == ReadingHtml(rs, k, false)
  {
    if !EmptyReading(ReadingAt(rs, k)) {
      var r := ReadingAt(rs, k).value;
      var open := ReadingOpen(k, ReadingTitle(k), r.reference.GetOr(""));
      var verses := VerseBlock(r.verses, full);
      assert ReadingHtml(rs, k, full) == [open] + verses + [ReadingClose];
      VerseBlockParts(r.verses, full);
      Single(open);
      Single(ReadingClose);
      assert WithoutVerses(verses) == [];
      WithoutVersesAppend([open], verses);
      WithoutVersesAppend([open] + verses, [ReadingClose]);
      WithoutVersesAppend([open], [ReadingClose]);
    }
  }

  lemma {:induction false} ReadingsFromParts(rs: Readings, keys: seq<ReadingKey>)
    ensures ShownKeys(ReadingsFrom(rs, keys, true)) == NonEmptyKeys(rs, keys)
    ensures ShownKeys(ReadingsFrom(rs, keys, false)) == NonEmptyKeys(rs, keys)
    ensures WithoutVerses(ReadingsFrom(rs, keys, true)) == ReadingsFrom(rs, keys, false)
    ensures WithoutVerses(ReadingsFrom(rs, keys, false)) == ReadingsFrom(rs, keys, false)
  {
    if |keys| > 0 {
      var init, k := keys[..|keys| - 1], keys[|keys| - 1];
      ReadingsFromParts(rs, init);
      ReadingKeysPart(rs, k, true);
      ReadingKeysPart(rs, k, false);
      ReadingVersesPart(rs, k, true);
      ReadingVersesPart(rs, k, false);
      ShownKeysAppend(ReadingsFrom(rs, init, true), ReadingHtml(rs, k, true));
      ShownKeysAppend(ReadingsFrom(rs, init, false), ReadingHtml(rs, k, false));
      WithoutVersesAppend(ReadingsFrom(rs, init, true), ReadingHtml(rs, k, true));
      WithoutVersesAppend(ReadingsFrom(rs, init, false), ReadingHtml(rs, k, false));
    }
  }

  /** The `readings` wrapper adds no key and no verse. */
  lemma Wrapped(body: seq<Fragment>)
    ensures ShownKeys([ReadingsOpen] + body + [ReadingsClose]) == ShownKeys(body)
    ensures WithoutVerses([ReadingsOpen] + body + [ReadingsClose]) == [ReadingsOpen] + WithoutVerses(body) + [ReadingsClose]
  {
    ShownKeysAppend([ReadingsOpen], body);
    ShownKeysAppend([ReadingsOpen] + body, [ReadingsClose]);
    WithoutVersesAppend([ReadingsOpen], body);
    WithoutVersesAppend([ReadingsOpen] + body, [ReadingsClose]);
    Single(ReadingsOpen);
    Single(ReadingsClose);
  }

  /** `render_readings` shows nothing when `readings` is absent or empty;
      otherwise it lists the non-empty readings in the fixed order first
      reading, psalm, second reading, gospel, whether full or not. */
  lemma ReadingsInOrder(data: Calendar, full: bool)
    ensures ReadingsHtml(data, full) == [] <==> NoReadings(data)
    ensures !NoReadings(data) ==> ShownKeys(ReadingsHtml(data, full)) == NonEmptyKeys(data.readings.value, ReadingOrder)
  {
    if !NoReadings(data) {
      var rs := data.readings.value;
      ReadingsFromParts(rs, ReadingOrder);
      Wrapped(ReadingsFrom(rs, ReadingOrder, full));
    }
  }

  /** The full form differs from the summary form only by the verse
      blocks, and the summary form has none. */
  lemma VersesOnlyWhenFull(data: Calendar, full: bool)
    ensures WithoutVerses(ReadingsHtml(data, full)) == ReadingsHtml(data, false)
  {
    if !NoReadings(data) {
      var rs := data.readings.value;
      ReadingsFromParts(rs, ReadingOrder);
      Wrapped(ReadingsFrom(rs, ReadingOrder, full));
    }
  }

  // ---------------------------------------------------------------------
  // The shortcodes

  /** `Estevao_Liturgical_Shortcodes`. */
  class ShortcodeRenderer {
    const client: ApiClient

    constructor (client: ApiClient)
      ensures this.client == client
    {
      this.client := client;
    }

    /** `render_collects`, collect by collect. */
    method RenderCollects(data: Calendar) returns (out: seq<Fragment>)
      ensures out == CollectsHtml(data)
    {
      if |data.collect| == 0 {
        return [];
      }
      var body: seq<Fragment> := [];
      var i := 0;
      while i < |data.collect|
        invariant 0 <= i <= |data.collect|
        invariant body == CollectsFrom(data.collect[..i])
      {
        var c := data.collect[i];
        assert data.collect[..i + 1][..i] == data.collect[..i];
        var block := [CollectOpen];
        if !Empty(c.title) {
          block := block + [CollectTitle(c.title.value, if !Empty(c.subtitle) then Some(c.subtitle.value) else None)];
        }
        if !Empty(c.text) {
          block := block + [CollectText(c.text.value)];
        }
        body := body + (block + [CollectClose]);
        i := i + 1;
      }
      assert data.collect[..i] == data.collect;
      out := [CollectsOpen] + body + [CollectsClose];
    }

    /** The verse lines of one reading, verse by verse. */
    method RenderVerses(vs: seq<Verse>) returns (out: seq<Fragment>)
      ensures out == VerseLines(vs)
    {
      out := [];
      var j := 0;
      while j < |vs|
        invariant 0 <= j <= |vs|
        invariant out == VerseLines(vs[..j])
      {
        assert vs[..j + 1][..j] == vs[..j];
        out := out + [VerseLine(vs[j].number, vs[j].text)];
        j := j + 1;
      }
      assert vs[..j] == vs;
    }

    /** `render_readings`, reading type by reading type. */
    method RenderReadings(data: Calendar, full: bool) returns (out: seq<Fragment>)
      ensures out == ReadingsHtml(data, full)
    {
      if NoReadings(data) {
        return [];
      }
      var rs := data.readings.value;
      var body: seq<Fragment> := [];
      var i := 0;
      while i < |ReadingOrder|
        invariant 0 <= i <= |ReadingOrder|
        invariant body == ReadingsFrom(rs, ReadingOrder[..i], full)
      {
        var k := ReadingOrder[i];
        assert ReadingOrder[..i + 1][..i] == ReadingOrder[..i];
        if !EmptyReading(ReadingAt(rs, k)) {
          var r := ReadingAt(rs, k).value;
          var verses: seq<Fragment> := [];
          if full && |r.verses| > 0 {
            var lines := RenderVerses(r.verses);
            verses := [VersesOpen] + lines + [VersesClose];
          }
          body := body + ([ReadingOpen(k, ReadingTitle(k), r.reference.GetOr(""))] + verses + [ReadingClose]);
        }
        i := i + 1;
      }
      assert ReadingOrder[..i] == ReadingOrder;
      out := [ReadingsOpen] + body + [ReadingsClose];
    }

    /** `render_field`. */
    method RenderField(field: string, data: Calendar) returns (out: seq<Fragment>)
      ensures out == FieldHtml(field, data)
    {
      out := [];
      match field {
        case "date" =>
          if !Empty(data.date) { out := [DateLine(data.date.value)]; }
        case "day_name" =>
          var name := DayName(data);
          if !Empty(Some(name)) { out := [DayNameLine(name)]; }
        case "season" =>
          if !Empty(data.liturgicalSeason) { out := [SeasonLine(data.liturgicalSeason.value)]; }
        case "color" =>
          if !Empty(data.liturgicalColor) { out := [ColorLine(data.liturgicalColor.value)]; }
        case "year" =>
          if !Empty(data.liturgicalYear) { out := [YearLine(data.liturgicalYear.value)]; }
        case "collect" =>
          out := RenderCollects(data);
        case "readings" =>
          out := RenderReadings(data, false);
        case "readings_full" =>
          out := RenderReadings(data, true);
        case "celebration" =>
          out := CelebrationHtml(data);
        case _ =>
      }
    }

    /** `render_calendar`: the wrapper, then each field in turn. */
    method RenderCalendar(data: Calendar, fields: seq<string>) returns (out: seq<Fragment>)
      ensures out == CalendarHtml(data, fields)
    {
      var body: seq<Fragment> := [];
      var i := 0;
      while i < |fields|
        invariant 0 <= i <= |fields|
        invariant body == FieldsFrom(fields[..i], data)
      {
        var part := RenderField(fields[i], data);
        assert FieldParts(fields[..i + 1], data) == FieldParts(fields[..i], data) + [part];
        FlattenAppend(FieldParts(fields[..i], data), [part]);
        assert Flatten([part]) == part by { assert [part][..0] == []; }
        body := body + part;
        i := i + 1;
      }
      assert fields[..i] == fields;
      out := [CalendarOpen(ColorClass(data))] + body + [CalendarClose];
    }

    /** `render_banner`: the default elements stand in for an empty list. */
    method RenderBanner(data: Calendar, style: string, elements: seq<string>) returns (out: seq<Fragment>)
      ensures out == ShortcodeBanner(data, style, elements)
    {
      var els := elements;
      if |els| == 0 {
        els := DefaultElements;
      }
      out := BuildBanner(data, style, els);
    }

    /** `render_shortcode`: resolve the date, fetch the day, render the
      fields; the first error replaces everything with its error block. */
    method RenderShortcode(atts: map<string, string>, today: Date, now: int, remote: RemoteApi) returns (out: seq<Fragment>)
      requires Valid(today) && client.site.Valid()
      modifies client.site
      ensures client.site.Valid() && client.site.options == old(client.site.options)
      ensures var date := ResolveDate(Attr(atts, "date", "today"), today);
        if date.Failure? then
          out == ErrorHtml(date.error.message)
          && client.site.transients == old(client.site.transients) && client.site.requests == old(client.site.requests)
        else
          var f := CalendarFetch(old(client.site.options), old(client.site.transients), date.value, now, remote);
          client.site.transients == f.cache && client.site.requests == old(client.site.requests) + SentLog(f.sent)
          && out == if f.result.Failure? then ErrorHtml(f.result.error.message)
                    else CalendarHtml(f.result.value, ParseShow(Attr(atts, "show", "")))
    {
      var date := ResolveDate(Attr(atts, "date", "today"), today);
      if date.Failure? {
        return ErrorHtml(date.error.message);
      }
      var data := client.GetCalendar(date.value, now, remote);
      if data.Failure? {
        return ErrorHtml(data.error.message);
      }
      var fields := ParseShow(Attr(atts, "show", ""));
      out := RenderCalendar(data.value, fields);
    }

    /** `render_banner_shortcode`: as `render_shortcode`, then the style and
      the elements from the attributes or the stored options. */
    method RenderBannerShortcode(atts: map<string, string>, today: Date, now: int, remote: RemoteApi) returns (out: seq<Fragment>)
      requires Valid(today) && client.site.Valid()
      modifies client.site
      ensures client.site.Valid() && client.site.options == old(client.site.options)
      ensures var date := ResolveDate(Attr(atts, "date", "today"), today);
        var opts := old(client.site.options);
        if date.Failure? then
          out == ErrorHtml(date.error.message)
          && client.site.transients == old(client.site.transients) && client.site.requests == old(client.site.requests)
        else
          var f := CalendarFetch(opts, old(client.site.transients), date.value, now, remote);
          client.site.transients == f.cache && client.site.requests == old(client.site.requests) + SentLog(f.sent)
          && out == if f.result.Failure? then ErrorHtml(f.result.error.message)
                    else ShortcodeBanner(f.result.value,
                           ChooseStyle(Attr(atts, "style", ""), opts.bannerStyle),
                           ChooseElements(Attr(atts, "show", ""), opts.bannerElements))
    {
      var date := ResolveDate(Attr(atts, "date", "today"), today);
      if date.Failure? {
        return ErrorHtml(date.error.message);
      }
      var data := client.GetCalendar(date.value, now, remote);
      if data.Failure? {
        return ErrorHtml(data.error.message);
      }
      var style := Attr(atts, "style", "");
      if Empty(Some(style)) || style !in BannerStyles {
        style := client.site.options.bannerStyle.GetOr(DefaultStyle);
      }
      var show := Attr(atts, "show", "");
      var elements: seq<string> := [];
      if !Empty(Some(show)) {
        elements := Intersect(TrimAll(Split(show, ',')), BannerElements);
      }
      if |elements| == 0 {
        elements := client.site.options.bannerElements.GetOr(DefaultElements);
      }
      out := RenderBanner(data.value, style, elements);
    }
  }
}
