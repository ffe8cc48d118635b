/** The script of the settings page: the form data the preview is built
    from, and the `[liturgical_banner]` shortcode generated from it. */

module AdminScript {
  import opened Wrappers
  import opened Text
  import opened Dates
  import opened Payload
  import opened Html
  import opened Api
  import opened Banner
  import opened Shortcodes
  import opened AdminSettings

  /** A value as jQuery's `.val()` returns it: absent (`undefined`, `null`)
      or a string. */
  type JsValue = Option<string>

  /** JavaScript truthiness of such a value: absent and `""` are false. */
  predicate Truthy(v: JsValue)
  {
    v.Some? && v.value != ""
  }

  /** `a || b`. */
  function Or(a: JsValue, b: JsValue): JsValue
  {
    if Truthy(a) then a else b
  }

  // ---------------------------------------------------------------------
  // getFormData

  /** One element checkbox: its value and whether it is checked. */
  datatype Checkbox = Checkbox(value: string, checked: bool)

  /** The controls `getFormData` reads: the select and the fallback text
      input of each preference, the element checkboxes in page order, and
      the checked style and date radios. */
  datatype FormState = FormState(
    prayerBookSelect: JsValue,
    prayerBookInput: JsValue,
    bibleVersionSelect: JsValue,
    bibleVersionInput: JsValue,
    elementBoxes: seq<Checkbox>,
    checkedStyle: JsValue,
    checkedDate: JsValue)

  datatype FormData = FormData(
    prayerBook: JsValue,
    bibleVersion: JsValue,
    style: string,
    elements: seq<string>,
    dateType: string)

  /** The values of the checked boxes, in page order. */
  function CheckedValues(boxes: seq<Checkbox>): (r: seq<string>)
    ensures |r| <= |boxes|
    ensures forall v :: v in r <==> Checkbox(v, true) in boxes
  {
    if |boxes| == 0 then []
    else
      var last := boxes[|boxes| - 1];
      CheckedValues(boxes[..|boxes| - 1]) + (if last.checked then [last.value] else [])
  }

  /** The checked values keep the page order: the values of two runs of
      boxes are the values of the first run, then of the second, and each
      value occurs as often as a checked box carries it. */
  lemma {:induction false} CheckedValuesKeepOrder(a: seq<Checkbox>, b: seq<Checkbox>, v: string)
    ensures CheckedValues(a + b) == CheckedValues(a) + CheckedValues(b)
    ensures multiset(CheckedValues(a))[v] == multiset(a)[Checkbox(v, true)]
    decreases |b|
  {
    CheckedCount(a, v);
    if |b| == 0 {
      assert a + b == a;
    } else {
      var init := b[..|b| - 1];
      var last := b[|b| - 1];
      var tail: seq<string> := if last.checked then [last.value] else [];
      assert (a + b)[..|a + b| - 1] == a + init;
      assert (a + b)[|a + b| - 1] == last;
      CheckedValuesKeepOrder(a, init, v);
      calc {
        CheckedValues(a + b);
        CheckedValues(a + init) + tail;
        CheckedValues(a) + CheckedValues(init) + tail;
        CheckedValues(a) + (CheckedValues(init) + tail);
      }
    }
  }

  lemma {:induction false} CheckedCount(boxes: seq<Checkbox>, v: string)
    ensures multiset(CheckedValues(boxes))[v] == multiset(boxes)[Checkbox(v, true)]
  {
    if |boxes| > 0 {
      var init := boxes[..|boxes| - 1];
      var last := boxes[|boxes| - 1];
      var tail: seq<string> := if last.checked then [last.value] else [];
      CheckedCount(init, v);
      assert boxes == init + [last];
      assert multiset(boxes)[Checkbox(v, true)] == multiset(init)[Checkbox(v, true)] + multiset([last])[Checkbox(v, true)];
      assert CheckedValues(boxes) == CheckedValues(init) + tail;
      assert multiset(CheckedValues(boxes))[v] == multiset(CheckedValues(init))[v] + multiset(tail)[v];
    }
  }

  /** `getFormData`: the select's value or else the text input's for each
      preference, and the defaults `simple`, `title,year,readings` and
      `today` for a missing style, an empty element list and a missing date
      type. */
  function FormDataOf(form: FormState): (d: FormData)
    ensures d.prayerBook == if Truthy(form.prayerBookSelect) then form.prayerBookSelect else form.prayerBookInput
    ensures d.bibleVersion == if Truthy(form.bibleVersionSelect) then form.bibleVersionSelect else form.bibleVersionInput
    ensures d.style == if Truthy(form.checkedStyle) then form.checkedStyle.value else "simple"
    ensures |CheckedValues(form.elementBoxes)| == 0 ==> d.elements == ["title", "year", "readings"]
    ensures |CheckedValues(form.elementBoxes)| > 0 ==> d.elements == CheckedValues(form.elementBoxes)
    ensures d.dateType == if Truthy(form.checkedDate) then form.checkedDate.value else "today"
    ensures |d.elements| > 0 && d.style != "" && d.dateType != ""
  {
    var checked := CheckedValues(form.elementBoxes);
    FormData(
      Or(form.prayerBookSelect, form.prayerBookInput),
      Or(form.bibleVersionSelect, form.bibleVersionInput),
      Or(form.checkedStyle, Some(DefaultStyle)).value,
      if |checked| > 0 then checked else DefaultElements,
      Or(form.checkedDate, Some("today")).value)
  }

  /** `getFormData`, with the `.each` over the checked boxes. */
  method GetFormData(form: FormState) returns (d: FormData)
    ensures d == FormDataOf(form)
  {
    var boxes := form.elementBoxes;
    var elements: seq<string> := [];
    var i := 0;
    while i < |boxes|
      invariant 0 <= i <= |boxes|
      invariant elements == CheckedValues(boxes[..i])
    {
      assert boxes[..i + 1][..i] == boxes[..i];
      if boxes[i].checked {
        elements := elements + [boxes[i].value];
      }
      i := i + 1;
    }
    assert boxes[..|boxes|] == boxes;
    d := FormData(
      Or(form.prayerBookSelect, form.prayerBookInput),
      Or(form.bibleVersionSelect, form.bibleVersionInput),
      Or(form.checkedStyle, Some("simple")).value,
      if |elements| > 0 then elements else ["title", "year", "readings"],
      Or(form.checkedDate, Some("today")).value);
  }

  // ---------------------------------------------------------------------
  // updateGeneratedShortcode

  const ShortcodeOpening := "[liturgical_banner"

  /** The element list differs from `title,year,readings`: another length,
      or a member outside it. */
  predicate ElementsChanged(elements: seq<string>)
  {
    |elements| != 3 || !(forall i :: 0 <= i < |elements| ==> elements[i] in DefaultElements)
  }

  /** `name="value"`. */
  function AttrText(name: string, value: string): string
  {
    name + "=\"" + value + "\""
  }

  /** The attributes the shortcode carries, by name, as the shortcode
      parser hands them to `render_banner_shortcode`. */
  function ShortcodeAtts(data: FormData): map<string, string>
  {
    var dateAtt: map<string, string> := if data.dateType != "today" then map["date" := data.dateType] else map[];
    var styleAtt: map<string, string> := if data.style != "simple" then map["style" := data.style] else map[];
    var showAtt: map<string, string> := if ElementsChanged(data.elements) then map["show" := Join(data.elements, ",")] else map[];
    dateAtt + styleAtt + showAtt
  }

  /** The names of the attributes present, in the order date, style, show. */
  function AttrNames(atts: map<string, string>): (names: seq<string>)
    ensures forall n :: n in names ==> n in atts
  {
    (if "date" in atts then ["date"] else [])
    + (if "style" in atts then ["style"] else [])
    + (if "show" in atts then ["show"] else [])
  }

  /** The texts of the named attributes, in order. */
  function AttrTexts(atts: map<string, string>, names: seq<string>): (texts: seq<string>)
    requires forall n :: n in names ==> n in atts
    ensures |texts| == |names|
  {
    if |names| == 0 then []
    else AttrTexts(atts, names[..|names| - 1]) + [AttrText(names[|names| - 1], atts[names[|names| - 1]])]
  }

  /** The generated shortcode: the opening, a space and the attributes
      joined by single spaces when there are any, and `]`. */
  function GeneratedShortcode(data: FormData): string
  {
    var atts := ShortcodeAtts(data);
    var texts := AttrTexts(atts, AttrNames(atts));
    ShortcodeOpening + (if |texts| > 0 then " " + Join(texts, " ") else "") + "]"
  }

  /** `updateGeneratedShortcode`: pushes each attribute that differs from
      its default, then concatenates them onto the opening. */
  method UpdateGeneratedShortcode(data: FormData) returns (shortcode: string)
    ensures shortcode == GeneratedShortcode(data)
  {
    shortcode := "[liturgical_banner";
    var attrs: seq<string> := [];
    ghost var atts := ShortcodeAtts(data);
    ghost var names: seq<string> := [];
    ShortcodeAttributes(data);

    if data.dateType != "today" {
      AttrTextsSnoc(atts, names, "date");
      attrs := attrs + [AttrText("date", data.dateType)];
      names := names + ["date"];
    }
    assert attrs == AttrTexts(atts, names);
    if data.style != "simple" {
      AttrTextsSnoc(atts, names, "style");
      attrs := attrs + [AttrText("style", data.style)];
      names := names + ["style"];
    }
    assert attrs == AttrTexts(atts, names);
    var defaultElements := ["title", "year", "readings"];
    var every := Every(data.elements, defaultElements);
    var elementsChanged := |data.elements| != |defaultElements| || !every;
    if elementsChanged {
      AttrTextsSnoc(atts, names, "show");
      attrs := attrs + [AttrText("show", Join(data.elements, ","))];
      names := names + ["show"];
    }
    assert attrs == AttrTexts(atts, names);
    assert names == AttrNames(atts);
    assert attrs == AttrTexts(atts, AttrNames(atts));
    if |attrs| > 0 {
      shortcode := shortcode + (" " + Join(attrs, " "));
    }
    shortcode := shortcode + "]";
  }

  /** `elements.every(el => allowed.includes(el))`. */
  method Every(xs: seq<string>, allowed: seq<string>) returns (every: bool)
    ensures every <==> forall i :: 0 <= i < |xs| ==> xs[i] in allowed
  {
    every := true;
    var i := 0;
    while i < |xs|
      invariant 0 <= i <= |xs|
      invariant every <==> forall j :: 0 <= j < i ==> xs[j] in allowed
    {
      every := every && xs[i] in allowed;
      i := i + 1;
    }
  }

  lemma AttrTextsSnoc(atts: map<string, string>, names: seq<string>, n: string)
    requires forall m :: m in names ==> m in atts
    requires n in atts
    ensures AttrTexts(atts, names + [n]) == AttrTexts(atts, names) + [AttrText(n, atts[n])]
  {
    assert (names + [n])[..|names|] == names;
  }

  // ---------------------------------------------------------------------
  // Properties of the generated shortcode

  /** Each attribute is present exactly when its value differs from the
      default, and carries that value; no other attribute is present. */
  lemma ShortcodeAttributes(data: FormData)
    ensures var atts := ShortcodeAtts(data);
      ("date" in atts <==> data.dateType != "today")
      && ("date" in atts ==> atts["date"] == data.dateType)
      && ("style" in atts <==> data.style != "simple")
      && ("style" in atts ==> atts["style"] == data.style)
      && ("show" in atts <==> |data.elements| != 3 || exists i :: 0 <= i < |data.elements| && data.elements[i] !in DefaultElements)
      && ("show" in atts ==> atts["show"] == Join(data.elements, ","))
      && (forall n :: n in atts ==> n == "date" || n == "style" || n == "show")
  {
  }

  /** ` a1 a2 ...`: each attribute preceded by one space. */
  function Spaced(texts: seq<string>): string
  {
    if |texts| == 0 then "" else Spaced(texts[..|texts| - 1]) + " " + texts[|texts| - 1]
  }

  lemma {:induction false} JoinSpaced(texts: seq<string>)
    requires |texts| > 0
    ensures " " + Join(texts, " ") == Spaced(texts)
  {
    if |texts| > 1 {
      var init := texts[..|texts| - 1];
      assert texts == init + [texts[|texts| - 1]];
      JoinSpaced(init);
      JoinSnoc(init, texts[|texts| - 1], " ");
    } else {
      assert texts[..0] == [];
    }
  }

  lemma {:induction false} JoinSnoc(parts: seq<string>, last: string, glue: string)
    requires |parts| > 0
    ensures Join(parts + [last], glue) == Join(parts, glue) + glue + last
  {
    if |parts| == 1 {
      assert (parts + [last])[1..] == [last];
    } else {
      assert (parts + [last])[1..] == parts[1..] + [last];
      JoinSnoc(parts[1..], last, glue);
    }
  }

  /** The shortcode is its opening, then each present attribute preceded by
      a single space in the order date, style, show, then `]`; with every
      value at its default it is exactly `[liturgical_banner]`. */
  lemma ShortcodeShape(data: FormData)
    ensures var atts := ShortcodeAtts(data);
      GeneratedShortcode(data) == ShortcodeOpening + Spaced(AttrTexts(atts, AttrNames(atts))) + "]"
    ensures |ShortcodeAtts(data)| == 0 ==> GeneratedShortcode(data) == "[liturgical_banner]"
    ensures HasPrefix(GeneratedShortcode(data), "[liturgical_banner")
    ensures GeneratedShortcode(data)[|GeneratedShortcode(data)| - 1] == ']'
  {
    var atts := ShortcodeAtts(data);
    var texts := AttrTexts(atts, AttrNames(atts));
    var tail := if |texts| > 0 then " " + Join(texts, " ") else "";
    assert GeneratedShortcode(data) == ShortcodeOpening + tail + "]";
    if |texts| > 0 {
      JoinSpaced(texts);
    }
    assert tail == Spaced(texts);
    if |atts| == 0 {
      assert "date" !in atts && "style" !in atts && "show" !in atts;
      assert AttrNames(atts) == [];
    }
    var s := GeneratedShortcode(data);
    assert s == ShortcodeOpening + (tail + "]");
    assert s[..|ShortcodeOpening|] == ShortcodeOpening;
  }

  /** The preview's defaults give the bare shortcode: date type `today`,
      style `simple` and the elements `title`, `year`, `readings` in any
      order. */
  lemma DefaultShortcode(data: FormData)
    requires data.dateType == "today" && data.style == "simple"
    requires multiset(data.elements) == multiset(DefaultElements)
    ensures GeneratedShortcode(data) == "[liturgical_banner]"
  {
    assert |data.elements| == |multiset(data.elements)| == 3;
    forall i | 0 <= i < |data.elements|
      ensures data.elements[i] in DefaultElements
    {
      assert data.elements[i] in multiset(data.elements);
    }
    ShortcodeShape(data);
  }

  /** Three distinct default names are the default list up to order. */
  lemma DistinctDefaults(elements: seq<string>)
    requires |elements| == 3 && forall i :: 0 <= i < 3 ==> elements[i] in DefaultElements
    requires elements[0] != elements[1] && elements[0] != elements[2] && elements[1] != elements[2]
    ensures forall e :: e in BannerElements ==> (e in elements <==> e in DefaultElements)
  {
  }

  /** The banner element names are plain words. */
  lemma BannerElementsPlain()
    ensures forall e :: e in BannerElements ==> Plain(e)
  {
    assert Plain("date") && Plain("title") && Plain("year") && Plain("readings");
  }

  /** A comma-joined list of element names is read back by the banner
      shortcode as the same list. */
  lemma {:induction false} ShowReadBack(elements: seq<string>, stored: Option<seq<string>>)
    requires |elements| > 0
    requires forall i :: 0 <= i < |elements| ==> elements[i] in BannerElements
    ensures ChooseElements(Join(elements, ","), stored) == elements
  {
    BannerElementsPlain();
    var show := Join(elements, ",");
    JoinHead(elements, ",");
    assert !Empty(Some(show)) by {
      assert |elements[0]| >= 4;
    }
    SplitJoin(elements, ',');
    TrimAllUnspaced(elements);
    IntersectAllAllowed(elements, BannerElements);
  }

  /** The generated shortcode asks for the preview's banner: its date
      attribute resolves to the preview's date, its style is the chosen one
      (a `simple` choice leaves the stored style in charge), and the banner
      shows the chosen elements (a default choice leaves the stored element
      list in charge, which unset means the same three elements). */
  lemma ShortcodeReproducesPreview(data: FormData, opts: Options, cal: Calendar, today: Date)
    requires Valid(today)
    requires data.dateType in ["today", "last_sunday", "next_sunday"]
    requires data.style in BannerStyles
    requires |data.elements| > 0 && forall i :: 0 <= i < |data.elements| ==> data.elements[i] in BannerElements
    requires forall i, j :: 0 <= i < j < |data.elements| ==> data.elements[i] != data.elements[j]
    ensures var atts := ShortcodeAtts(data);
      ResolveDate(Attr(atts, "date", "today"), today) == Success(PreviewDate(data.dateType, today))
    ensures var atts := ShortcodeAtts(data);
      ChooseStyle(Attr(atts, "style", ""), opts.bannerStyle)
        == if data.style != "simple" then data.style else opts.bannerStyle.GetOr("simple")
    ensures var atts := ShortcodeAtts(data);
      var elements := ChooseElements(Attr(atts, "show", ""), opts.bannerElements);
      (ElementsChanged(data.elements) ==> elements == data.elements)
      && (!ElementsChanged(data.elements) ==> elements == opts.bannerElements.GetOr(DefaultElements))
      && (!ElementsChanged(data.elements) && opts.bannerElements.None? ==>
            BannerMarkup(cal, data.style, elements) == BannerMarkup(cal, data.style, data.elements))
  {
    var atts := ShortcodeAtts(data);
    ShortcodeAttributes(data);
    PreviewDateAsShortcode(data.dateType, today);
    assert "" !in BannerStyles;
    if ElementsChanged(data.elements) {
      ShowReadBack(data.elements, opts.bannerElements);
    } else {
      ElementsChoice("", opts.bannerElements);
      if opts.bannerElements.None? {
        DistinctDefaults(data.elements);
        BannerBodyByMembership(cal, DefaultElements, data.elements);
      }
    }
  }
}
