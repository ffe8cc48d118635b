/** The decoded JSON the calendar API returns, one record per nesting level,
    and PHP's `empty()` on each kind of value the plugin tests.

    A scalar field is an `Option<string>`: `None` is a key that is absent or
    `null`. An object carries `extra`, true when it has keys the plugin never
    reads (or a key whose value is `null`); `empty()` of an object only asks
    whether it has any key at all, so `extra` keeps that test exact. A value
    that is not an array where the plugin expects one behaves, in every place
    it is read, like the absent value, and is represented by it. */
module Payload {
  import opened Wrappers

  datatype Verse = Verse(number: string, text: string)

  /** A reading: its reference and the verses of its `content`. */
  datatype Reading = Reading(reference: Option<string>, verses: seq<Verse>, extra: bool)

  datatype ReadingKey = FirstReading | Psalm | SecondReading | Gospel

  datatype Readings = Readings(
    firstReading: Option<Reading>,
    psalm: Option<Reading>,
    secondReading: Option<Reading>,
    gospel: Option<Reading>,
    extra: bool)

  datatype Celebration = Celebration(
    name: Option<string>,
    description: Option<string>,
    color: Option<string>,
    extra: bool)

  datatype Collect = Collect(title: Option<string>, subtitle: Option<string>, text: Option<string>)

  /** One calendar day as the API describes it. */
  datatype Calendar = Calendar(
    date: Option<string>,
    liturgicalSeason: Option<string>,
    liturgicalColor: Option<string>,
    liturgicalYear: Option<string>,
    sundayName: Option<string>,
    dayOfWeek: Option<string>,
    celebration: Option<Celebration>,
    collect: seq<Collect>,
    readings: Option<Readings>)

  /** An item of the prayer-book or bible-version list endpoints. */
  datatype CatalogueEntry = CatalogueEntry(
    code: string,
    name: Option<string>,
    fullName: Option<string>,
    language: Option<string>,
    jurisdiction: Option<string>)

  /** The body of a list endpoint: its `data` envelope, if present. */
  datatype ListBody = ListBody(data: Option<seq<CatalogueEntry>>)

  /** The order in which every renderer walks the readings. */
  const ReadingOrder: seq<ReadingKey> := [FirstReading, Psalm, SecondReading, Gospel]

  function KeyName(k: ReadingKey): string
  {
    match k
    case FirstReading => "first_reading"
    case Psalm => "psalm"
    case SecondReading => "second_reading"
    case Gospel => "gospel"
  }

  function ReadingAt(rs: Readings, k: ReadingKey): Option<Reading>
  {
    match k
    case FirstReading => rs.firstReading
    case Psalm => rs.psalm
    case SecondReading => rs.secondReading
    case Gospel => rs.gospel
  }

  /** PHP `empty()` of a scalar: absent, `null`, `""` and `"0"`. */
  predicate Empty(v: Option<string>)
  {
    v.None? || v.value == "" || v.value == "0"
  }

  /** PHP `empty()` of a reading: absent or an object without keys. */
  predicate EmptyReading(r: Option<Reading>)
  {
    r.None? || (r.value.reference.None? && |r.value.verses| == 0 && !r.value.extra)
  }

  /** `empty($data['readings']) || !is_array($data['readings'])`. */
  predicate NoReadings(data: Calendar)
  {
    match data.readings
    case None => true
    case Some(rs) =>
      rs.firstReading.None? && rs.psalm.None? && rs.secondReading.None?
      && rs.gospel.None? && !rs.extra
  }

  /** PHP `empty($data['celebration'])`. */
  predicate NoCelebration(data: Calendar)
  {
    match data.celebration
    case None => true
    case Some(c) => c.name.None? && c.description.None? && c.color.None? && !c.extra
  }

  /** `$data['celebration']['name']`, absent when there is no celebration. */
  function CelebrationName(data: Calendar): Option<string>
  {
    if data.celebration.Some? then data.celebration.value.name else None
  }

  /** `$data['celebration']['color']`, absent when there is no celebration. */
  function CelebrationColor(data: Calendar): Option<string>
  {
    if data.celebration.Some? then data.celebration.value.color else None
  }

  /** `$data['readings'][$key]['reference']`, absent when anything on the way is. */
  function ReferenceAt(data: Calendar, k: ReadingKey): Option<string>
  {
    if data.readings.Some? && ReadingAt(data.readings.value, k).Some?
    then ReadingAt(data.readings.value, k).value.reference
    else None
  }
}

/** Markup as a sequence of abstract fragments, one per element the plugin
    emits. Escaping (`esc_html`, `esc_attr`, `wp_kses_post`, `nl2br`),
    `ucfirst`, `sanitize_html_class` and translation are left to the
    renderer of a fragment; a fragment carries the raw text it shows. */
module Html {
  import opened Wrappers
  import opened Payload

  datatype Fragment =
    | ErrorBlock(message: string)
      // the calendar block
    | CalendarOpen(colorClass: Option<string>)
    | CalendarClose
    | DateLine(date: string)
    | DayNameLine(name: string)
    | SeasonLine(season: string)
    | ColorLine(color: string)
    | YearLine(year: string)
      // collects
    | CollectsOpen
    | CollectOpen
    | CollectTitle(title: string, subtitle: Option<string>)
    | CollectText(text: string)
    | CollectClose
    | CollectsClose
      // readings
    | ReadingsOpen
    | ReadingOpen(key: ReadingKey, caption: string, reference: string)
    | VersesOpen
    | VerseLine(number: string, text: string)
    | VersesClose
    | ReadingClose
    | ReadingsClose
      // celebration
    | CelebrationOpen
    | CelebrationNameLine(name: string)
    | CelebrationDescriptionLine(description: string)
    | CelebrationColorLine(color: string)
    | CelebrationClose
      // the banner
    | BannerOpen(style: string, color: string)
    | BannerDate(date: string)
    | BannerTitle(title: string)
    | BannerYear(year: string)
    | BannerReadings(summary: string)
    | BannerClose

  /** Markup that holds no error block. */
  predicate NoError(out: seq<Fragment>)
  {
    forall i :: 0 <= i < |out| ==> !out[i].ErrorBlock?
  }

  lemma NoErrorConcat(a: seq<Fragment>, b: seq<Fragment>)
    requires NoError(a) && NoError(b)
    ensures NoError(a + b)
  {
    forall i | 0 <= i < |a + b|
      ensures !(a + b)[i].ErrorBlock?
    {
      if i < |a| {
        assert (a + b)[i] == a[i];
      } else {
        assert (a + b)[i] == b[i - |a|];
      }
    }
  }

  /** The fragments of each part, one part after the other. */
  function Flatten(parts: seq<seq<Fragment>>): seq<Fragment>
  {
    if |parts| == 0 then [] else Flatten(parts[..|parts| - 1]) + parts[|parts| - 1]
  }

  lemma {:induction false} FlattenAppend(a: seq<seq<Fragment>>, b: seq<seq<Fragment>>)
    ensures Flatten(a + b) == Flatten(a) + Flatten(b)
    decreases |b|
  {
    if |b| == 0 {
      assert a + b == a;
    } else {
      var init := b[..|b| - 1];
      assert (a + b)[..|a + b| - 1] == a + init;
      assert (a + b)[|a + b| - 1] == b[|b| - 1];
      FlattenAppend(a, init);
      calc {
        Flatten(a + b);
        Flatten(a + init) + b[|b| - 1];
        Flatten(a) + Flatten(init) + b[|b| - 1];
        Flatten(a) + (Flatten(init) + b[|b| - 1]);
      }
    }
  }

  lemma {:induction false} FlattenNoError(parts: seq<seq<Fragment>>)
    requires forall i :: 0 <= i < |parts| ==> NoError(parts[i])
    ensures NoError(Flatten(parts))
  {
    if |parts| > 0 {
      FlattenNoError(parts[..|parts| - 1]);
    }
  }
}
