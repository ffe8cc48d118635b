/** The banner of `[liturgical_banner]` and of the settings-page preview:
    its colour, its title, its readings summary, the blocks it shows, and the
    choice of style and elements from the shortcode's attributes and the
    stored options. */
module Banner {
  import opened Wrappers
  import opened Text
  import opened Payload
  import opened Html

  const BannerStyles: seq<string> := ["simple", "elegant", "modern", "compact"]
  const BannerElements: seq<string> := ["date", "title", "year", "readings"]
  const DefaultElements: seq<string> := ["title", "year", "readings"]
  const DefaultStyle := "simple"
  const DefaultColor := "verde"

  /** The banner colour: `liturgical_color ?? 'verde'`, replaced by the
      celebration's colour when that is not empty. */
  function ColorOf(data: Calendar): string
  {
    if !Empty(CelebrationColor(data)) then CelebrationColor(data).value
    else data.liturgicalColor.GetOr(DefaultColor)
  }

  /** The celebration's name and the season, each only when not empty. */
  function TitleParts(data: Calendar): (parts: seq<string>)
    ensures |parts| <= 2
    ensures forall i :: 0 <= i < |parts| ==> !Empty(Some(parts[i]))
  {
    (if !Empty(CelebrationName(data)) then [CelebrationName(data).value] else [])
    + (if !Empty(data.liturgicalSeason) then [data.liturgicalSeason.value] else [])
  }

  /** The parts joined by `" - "`, or the Sunday's name when there are none. */
  function TitleOf(data: Calendar): string
  {
    var t := Join(TitleParts(data), " - ");
    if Empty(Some(t)) && !Empty(data.sundayName) then data.sundayName.value else t
  }

  function ReadingLabel(k: ReadingKey): string
  {
    match k
    case FirstReading => "1a Leit."
    case Psalm => "Sl"
    case SecondReading => "2a Leit."
    case Gospel => "Ev."
  }

  /** The summary entry of one reading: its label and reference, when the
      reference is not empty. An absent or empty `readings` has no
      references, so it needs no separate test. */
  function RefOf(data: Calendar, k: ReadingKey): seq<string>
  {
    if !Empty(ReferenceAt(data, k)) then [ReadingLabel(k) + ": " + ReferenceAt(data, k).value] else []
  }

  /** The summary entries of `keys`, in their order. */
  function RefsFrom(data: Calendar, keys: seq<ReadingKey>): seq<string>
  {
    if |keys| == 0 then [] else RefsFrom(data, keys[..|keys| - 1]) + RefOf(data, keys[|keys| - 1])
  }

  function ReadingRefs(data: Calendar): seq<string>
  {
    RefsFrom(data, ReadingOrder)
  }

  function ReadingSummary(data: Calendar): string
  {
    Join(ReadingRefs(data), " | ")
  }

  function DateBlock(data: Calendar, elements: seq<string>): seq<Fragment>
  {
    if "date" in elements && !Empty(data.date) then [BannerDate(data.date.value)] else []
  }

  function TitleBlock(data: Calendar, elements: seq<string>): seq<Fragment>
  {
    if "title" in elements && !Empty(Some(TitleOf(data))) then [BannerTitle(TitleOf(data))] else []
  }

  function YearBlock(data: Calendar, elements: seq<string>): seq<Fragment>
  {
    if "year" in elements && !Empty(data.liturgicalYear) then [BannerYear(data.liturgicalYear.value)] else []
  }

  function ReadingsBlock(data: Calendar, elements: seq<string>): seq<Fragment>
  {
    if "readings" in elements && |ReadingRefs(data)| > 0 then [BannerReadings(ReadingSummary(data))] else []
  }

  /** The blocks of the banner: date, title, year and readings, in that
      order, each only when it was asked for and has something to show. */
  function BannerBody(data: Calendar, elements: seq<string>): seq<Fragment>
  {
    DateBlock(data, elements) + TitleBlock(data, elements) + YearBlock(data, elements) + ReadingsBlock(data, elements)
  }

  /** The banner markup for exactly the given elements. */
  function BannerMarkup(data: Calendar, style: string, elements: seq<string>): seq<Fragment>
  {
    [BannerOpen(style, ColorOf(data))] + BannerBody(data, elements) + [BannerClose]
  }

  /** `render_banner`: an empty element list stands for the default one. */
  function ShortcodeBanner(data: Calendar, style: string, elements: seq<string>): seq<Fragment>
  {
    BannerMarkup(data, style, if |elements| == 0 then DefaultElements else elements)
  }

  /** The style of `[liturgical_banner]`: the attribute when it names one of
      the four styles, otherwise the stored option (default `simple`). */
  function ChooseStyle(attr: string, stored: Option<string>): (style: string)
    ensures attr in BannerStyles ==> style == attr
    ensures attr !in BannerStyles ==> style == stored.GetOr(DefaultStyle)
  {
    if Empty(Some(attr)) || attr !in BannerStyles then stored.GetOr(DefaultStyle) else attr
  }

  /** The banner elements the `show` attribute asks for. */
  function RequestedElements(show: string): seq<string>
  {
    if Empty(Some(show)) then [] else Intersect(TrimAll(Split(show, ',')), BannerElements)
  }

  /** The elements of `[liturgical_banner]`: the requested ones, or the
      stored option (default `title,year,readings`) when none is valid. */
  function ChooseElements(show: string, stored: Option<seq<string>>): seq<string>
  {
    var requested := RequestedElements(show);
    if |requested| == 0 then stored.GetOr(DefaultElements) else requested
  }

  // ---------------------------------------------------------------------
  // Properties

  /** A non-empty celebration colour wins; otherwise the liturgical colour as
      stored, even an empty one (`??` only replaces an absent value);
      otherwise `verde`. */
  lemma ColorPrecedence(data: Calendar)
    ensures !Empty(CelebrationColor(data)) ==> ColorOf(data) == CelebrationColor(data).value
    ensures Empty(CelebrationColor(data)) && data.liturgicalColor.Some? ==> ColorOf(data) == data.liturgicalColor.value
    ensures Empty(CelebrationColor(data)) && data.liturgicalColor.None? ==> ColorOf(data) == "verde"
    ensures ColorOf(data) == "" ==> data.liturgicalColor == Some("") && Empty(CelebrationColor(data))
  {
  }

  /** A join of non-empty parts is non-empty. */
  lemma JoinNonEmpty(parts: seq<string>, glue: string)
    requires 1 <= |parts| <= 2 && |glue| >= 2
    requires forall i :: 0 <= i < |parts| ==> !Empty(Some(parts[i]))
    ensures !Empty(Some(Join(parts, glue)))
  {
    if |parts| == 2 {
      assert Join(parts, glue) == parts[0] + glue + parts[1];
    }
  }

  /** The title: both parts joined by `" - "`, one part alone, or the
      Sunday's name; it is empty exactly when all three sources are. */
  lemma {:induction false} TitleRules(data: Calendar)
    ensures var name := CelebrationName(data); var season := data.liturgicalSeason;
      (!Empty(name) && !Empty(season) ==> TitleOf(data) == name.value + " - " + season.value)
      && (!Empty(name) && Empty(season) ==> TitleOf(data) == name.value)
      && (Empty(name) && !Empty(season) ==> TitleOf(data) == season.value)
      && (Empty(name) && Empty(season) && !Empty(data.sundayName) ==> TitleOf(data) == data.sundayName.value)
      && (Empty(Some(TitleOf(data))) <==> Empty(name) && Empty(season) && Empty(data.sundayName))
  {
    var parts := TitleParts(data);
    if |parts| > 0 {
      JoinNonEmpty(parts, " - ");
    }
  }

  /** The summary lists first reading, psalm, second reading and gospel in
      that order, each `label: reference`, skipping empty references. */
  lemma RefsFromSnoc(data: Calendar, keys: seq<ReadingKey>, k: ReadingKey)
    ensures RefsFrom(data, keys + [k]) == RefsFrom(data, keys) + RefOf(data, k)
  {
    assert (keys + [k])[..|keys|] == keys;
  }

  lemma {:induction false} ReadingRefsInOrder(data: Calendar)
    ensures ReadingRefs(data)
      == RefOf(data, FirstReading) + RefOf(data, Psalm) + RefOf(data, SecondReading) + RefOf(data, Gospel)
    ensures |ReadingRefs(data)| == 0 <==> forall k :: Empty(ReferenceAt(data, k))
  {
    ReadingRefsUnrolled(data);
    if |ReadingRefs(data)| == 0 {
      forall k
        ensures Empty(ReferenceAt(data, k))
      {
        match k
        case FirstReading => assert |RefOf(data, FirstReading)| == 0;
        case Psalm => assert |RefOf(data, Psalm)| == 0;
        case SecondReading => assert |RefOf(data, SecondReading)| == 0;
        case Gospel => assert |RefOf(data, Gospel)| == 0;
      }
    }
    if forall k :: Empty(ReferenceAt(data, k)) {
      assert Empty(ReferenceAt(data, FirstReading)) && Empty(ReferenceAt(data, Psalm));
      assert Empty(ReferenceAt(data, SecondReading)) && Empty(ReferenceAt(data, Gospel));
    }
  }

  lemma ReadingRefsUnrolled(data: Calendar)
    ensures ReadingRefs(data)
      == RefOf(data, FirstReading) + RefOf(data, Psalm) + RefOf(data, SecondReading) + RefOf(data, Gospel)
  {
    RefsFromSnoc(data, [], FirstReading);
    assert [] + [FirstReading] == [FirstReading];
    RefsFromSnoc(data, [FirstReading], Psalm);
    assert [FirstReading] + [Psalm] == [FirstReading, Psalm];
    RefsFromSnoc(data, [FirstReading, Psalm], SecondReading);
    assert [FirstReading, Psalm] + [SecondReading] == [FirstReading, Psalm, SecondReading];
    RefsFromSnoc(data, [FirstReading, Psalm, SecondReading], Gospel);
    assert [FirstReading, Psalm, SecondReading] + [Gospel] == ReadingOrder;
  }

  /** The shortcode banner substitutes `title,year,readings` for an empty
      list and otherwise shows the blocks of exactly the given elements. */
  lemma ShortcodeBannerDefaults(data: Calendar, style: string, elements: seq<string>)
    ensures |elements| == 0 ==> ShortcodeBanner(data, style, elements) == BannerMarkup(data, style, DefaultElements)
    ensures |elements| > 0 ==> ShortcodeBanner(data, style, elements) == BannerMarkup(data, style, elements)
  {
  }

  /** Only which elements are listed matters, not their order or repetitions. */
  lemma BannerBodyByMembership(data: Calendar, a: seq<string>, b: seq<string>)
    requires forall e :: e in BannerElements ==> (e in a <==> e in b)
    ensures BannerBody(data, a) == BannerBody(data, b)
  {
    assert "date" in BannerElements && "title" in BannerElements;
    assert "year" in BannerElements && "readings" in BannerElements;
  }

  /** The banner is framed by its opening and closing fragments and never
      holds an error block. */
  lemma {:induction false} BannerFrame(data: Calendar, style: string, elements: seq<string>)
    ensures var out := BannerMarkup(data, style, elements);
      NoError(out) && out[0] == BannerOpen(style, ColorOf(data)) && out[|out| - 1] == BannerClose
      && 2 <= |out| <= 6
  {
    BodyBound(data, elements);
    Framed(BannerOpen(style, ColorOf(data)), BannerBody(data, elements), BannerClose);
  }

  lemma BodyBound(data: Calendar, elements: seq<string>)
    ensures NoError(BannerBody(data, elements)) && |BannerBody(data, elements)| <= 4
  {
    var d, t, y, r := DateBlock(data, elements), TitleBlock(data, elements), YearBlock(data, elements), ReadingsBlock(data, elements);
    assert NoError(d) && NoError(t) && NoError(y) && NoError(r);
    NoErrorConcat(d, t);
    NoErrorConcat(d + t, y);
    NoErrorConcat(d + t + y, r);
  }

  lemma Framed(open: Fragment, body: seq<Fragment>, close: Fragment)
    requires !open.ErrorBlock? && !close.ErrorBlock? && NoError(body)
    ensures var out := [open] + body + [close];
      NoError(out) && out[0] == open && out[|out| - 1] == close && |out| == |body| + 2
  {
    NoErrorConcat([open], body);
    NoErrorConcat([open] + body, [close]);
  }

  /** Each block appears exactly when its element is asked for and its data
      is not empty. */
  lemma {:induction false} BannerBlocks(data: Calendar, style: string, elements: seq<string>)
    ensures var out := BannerMarkup(data, style, elements);
      (BannerDate(data.date.GetOr("")) in out <==> "date" in elements && !Empty(data.date))
      && (BannerTitle(TitleOf(data)) in out <==> "title" in elements && !Empty(Some(TitleOf(data))))
      && (BannerYear(data.liturgicalYear.GetOr("")) in out <==> "year" in elements && !Empty(data.liturgicalYear))
      && (BannerReadings(ReadingSummary(data)) in out <==> "readings" in elements && |ReadingRefs(data)| > 0)
  {
    var d, t, y, r := DateBlock(data, elements), TitleBlock(data, elements), YearBlock(data, elements), ReadingsBlock(data, elements);
    var open := BannerOpen(style, ColorOf(data));
    assert BannerMarkup(data, style, elements) == [open] + d + t + y + r + [BannerClose];
    BlockShown(BannerDate(data.date.GetOr("")), open, d, t, y, r, 0);
    BlockShown(BannerTitle(TitleOf(data)), open, d, t, y, r, 1);
    BlockShown(BannerYear(data.liturgicalYear.GetOr("")), open, d, t, y, r, 2);
    BlockShown(BannerReadings(ReadingSummary(data)), open, d, t, y, r, 3);
  }

  /** A block fragment of kind `which` is in the markup exactly when it is in
      its own block, each block holding fragments of its own kind only. */
  lemma BlockShown(x: Fragment, open: Fragment, d: seq<Fragment>, t: seq<Fragment>, y: seq<Fragment>, r: seq<Fragment>, which: nat)
    requires open.BannerOpen? && which < 4
    requires forall f :: f in d ==> f.BannerDate?
    requires forall f :: f in t ==> f.BannerTitle?
    requires forall f :: f in y ==> f.BannerYear?
    requires forall f :: f in r ==> f.BannerReadings?
    requires which == 0 ==> x.BannerDate?
    requires which == 1 ==> x.BannerTitle?
    requires which == 2 ==> x.BannerYear?
    requires which == 3 ==> x.BannerReadings?
    ensures x in [open] + d + t + y + r + [BannerClose]
      <==> (which == 0 && x in d) || (which == 1 && x in t) || (which == 2 && x in y) || (which == 3 && x in r)
  {
    MemberOfBlocks(x, open, d, t, y, r);
  }

  lemma MemberOfBlocks(x: Fragment, open: Fragment, d: seq<Fragment>, t: seq<Fragment>, y: seq<Fragment>, r: seq<Fragment>)
    ensures x in [open] + d + t + y + r + [BannerClose]
      <==> x == open || x in d || x in t || x in y || x in r || x == BannerClose
  {
  }

  /** The elements the `show` attribute names are used, in the given order
      and with repetitions, when at least one is valid; otherwise the stored
      option, or `title,year,readings` when none is stored. */
  lemma {:induction false} ElementsChoice(show: string, stored: Option<seq<string>>)
    ensures var r := ChooseElements(show, stored);
      var req := RequestedElements(show);
      (forall e :: e in req ==> e in BannerElements)
      && (|req| > 0 ==> r == req)
      && (|req| == 0 && stored.None? ==> r == DefaultElements)
      && (|req| == 0 && stored.Some? ==> r == stored.value)
      && (Empty(Some(show)) ==> r == stored.GetOr(DefaultElements))
  {
  }

  // ---------------------------------------------------------------------
  // The loop that builds the banner

  /** The title as `render_banner` builds it: the parts pushed one by one,
      joined, then the Sunday's name as a fallback. */
  method BuildTitle(data: Calendar) returns (title: string)
    ensures title == TitleOf(data)
  {
    var titleParts: seq<string> := [];
    if !Empty(CelebrationName(data)) {
      titleParts := titleParts + [CelebrationName(data).value];
    }
    if !Empty(data.liturgicalSeason) {
      titleParts := titleParts + [data.liturgicalSeason.value];
    }
    title := Join(titleParts, " - ");
    if Empty(Some(title)) && !Empty(data.sundayName) {
      title := data.sundayName.value;
    }
  }

  /** The readings summary entries, pushed reading by reading. */
  method CollectReadingRefs(data: Calendar) returns (refs: seq<string>)
    ensures refs == ReadingRefs(data)
  {
    refs := [];
    var i := 0;
    while i < |ReadingOrder|
      invariant 0 <= i <= |ReadingOrder|
      invariant refs == RefsFrom(data, ReadingOrder[..i])
    {
      var k := ReadingOrder[i];
      assert ReadingOrder[..i + 1][..i] == ReadingOrder[..i];
      if !Empty(ReferenceAt(data, k)) {
        refs := refs + [ReadingLabel(k) + ": " + ReferenceAt(data, k).value];
      }
      i := i + 1;
    }
    assert ReadingOrder[..i] == ReadingOrder;
  }

  /** `render_banner` after its default substitution, and the body of
      `render_banner_preview`: the colour, the title and the readings
      summary, then each block the elements ask for. */
  method BuildBanner(data: Calendar, style: string, elements: seq<string>) returns (out: seq<Fragment>)
    ensures out == BannerMarkup(data, style, elements)
  {
    var color := data.liturgicalColor.GetOr(DefaultColor);
    if !Empty(CelebrationColor(data)) {
      color := CelebrationColor(data).value;
    }
    var title := BuildTitle(data);
    var refs := CollectReadingRefs(data);
    var dateBlock, titleBlock, yearBlock, readingsBlock: seq<Fragment> := [], [], [], [];
    if "date" in elements && !Empty(data.date) {
      dateBlock := [BannerDate(data.date.value)];
    }
    if "title" in elements && !Empty(Some(title)) {
      titleBlock := [BannerTitle(title)];
    }
    if "year" in elements && !Empty(data.liturgicalYear) {
      yearBlock := [BannerYear(data.liturgicalYear.value)];
    }
    if "readings" in elements && |refs| > 0 {
      readingsBlock := [BannerReadings(Join(refs, " | "))];
    }
    assert dateBlock + titleBlock + yearBlock + readingsBlock == BannerBody(data, elements);
    out := [BannerOpen(style, color)] + (dateBlock + titleBlock + yearBlock + readingsBlock) + [BannerClose];
  }
}
