/** The settings page of the plugin: the sanitising of the stored banner
    elements, the preview and cache-clearing AJAX handlers, the preview
    banner and the bible-version choices grouped by language. */

module AdminSettings {
  import opened Wrappers
  import opened Text
  import opened Dates
  import opened Payload
  import opened Html
  import opened Api
  import opened Banner
  import opened Shortcodes

  /** The elements the settings page accepts, in its own order. */
  const ValidBannerElements: seq<string> := ["title", "year", "readings", "date"]

  // ---------------------------------------------------------------------
  // sanitize_banner_elements

  /** `sanitize_banner_elements`: anything but an array becomes
      `title,year,readings`; an array keeps the members that are valid
      element names, in their order and with their repetitions. */
  function SanitizeBannerElements(input: Option<seq<string>>): (r: seq<string>)
    ensures input.None? ==> r == ["title", "year", "readings"]
    ensures input.Some? ==> |r| <= |input.value|
    ensures input.Some? ==> forall x :: x in r <==> x in input.value && x in ValidBannerElements
  {
    if input.None? then DefaultElements else Intersect(input.value, ValidBannerElements)
  }

  /** Sanitising keeps the input order: sanitising a concatenation is the
      concatenation of the sanitised halves, and each valid name keeps its
      number of occurrences while every other name disappears. */
  lemma SanitizeKeepsOrder(xs: seq<string>, ys: seq<string>, x: string)
    ensures SanitizeBannerElements(Some(xs + ys)) == SanitizeBannerElements(Some(xs)) + SanitizeBannerElements(Some(ys))
    ensures multiset(SanitizeBannerElements(Some(xs)))[x] == if x in ValidBannerElements then multiset(xs)[x] else 0
  {
    IntersectAppend(xs, ys, ValidBannerElements);
    IntersectCount(xs, ValidBannerElements, x);
  }

  /** A sanitised list is left as it is by a second sanitising, and holds
      only names the banner knows. */
  lemma SanitizeIdempotent(input: Option<seq<string>>)
    ensures var r := SanitizeBannerElements(input);
      SanitizeBannerElements(Some(r)) == r
      && forall i :: 0 <= i < |r| ==> r[i] in BannerElements
  {
    var r := SanitizeBannerElements(input);
    assert forall i :: 0 <= i < |r| ==> r[i] in ValidBannerElements by {
      forall i | 0 <= i < |r|
        ensures r[i] in ValidBannerElements
      {
        assert r[i] in r;
      }
    }
    IntersectAllAllowed(r, ValidBannerElements);
  }

  // ---------------------------------------------------------------------
  // ajax_preview

  /** The POST fields of a preview request, each absent when not sent. */
  datatype Post = Post(
    prayerBook: Option<string>,
    bibleVersion: Option<string>,
    style: Option<string>,
    elements: Option<seq<string>>,
    dateType: Option<string>)

  /** The preview settings once the missing fields are defaulted. */
  datatype PreviewSettings = PreviewSettings(
    prayerBook: string,
    bibleVersion: string,
    style: string,
    elements: seq<string>,
    dateType: string)

  /** The `??` defaults of `ajax_preview`: `loc_2015`, `nvi`, `simple`,
      `title,year,readings` and `today`; a sent field is used as sent. */
  function Settings(post: Post): (p: PreviewSettings)
    ensures p.prayerBook == if post.prayerBook.Some? then post.prayerBook.value else "loc_2015"
    ensures p.bibleVersion == if post.bibleVersion.Some? then post.bibleVersion.value else "nvi"
    ensures p.style == if post.style.Some? then post.style.value else "simple"
    ensures p.elements == if post.elements.Some? then post.elements.value else ["title", "year", "readings"]
    ensures p.dateType == if post.dateType.Some? then post.dateType.value else "today"
  {
    PreviewSettings(
      post.prayerBook.GetOr(DefaultPrayerBook),
      post.bibleVersion.GetOr(DefaultBibleVersion),
      post.style.GetOr(DefaultStyle),
      post.elements.GetOr(DefaultElements),
      post.dateType.GetOr("today"))
  }

  /** The date `ajax_preview` asks for. */
  function PreviewDate(dateType: string, today: Date): string
    requires Valid(today)
  {
    if dateType == "last_sunday" then LastSundayDate(today)
    else if dateType == "next_sunday" then NextSundayDate(today)
    else TodayDate(today)
  }

  /** The preview resolves its three keywords as the shortcode's `date`
      attribute does, and anything else, a date included, to today. */
  lemma PreviewDateAsShortcode(dateType: string, today: Date)
    requires Valid(today)
    ensures dateType in ["today", "last_sunday", "next_sunday"] ==>
      ResolveDate(dateType, today) == Success(PreviewDate(dateType, today))
    ensures dateType !in ["today", "last_sunday", "next_sunday"] ==>
      PreviewDate(dateType, today) == PreviewDate("today", today)
  {
  }

  /** The stored options while the preview fetches: the posted preferences
      in place of the stored ones. */
  function PreviewOptions(opts: Options, p: PreviewSettings): Options
  {
    opts.(prayerBook := Some(p.prayerBook), bibleVersion := Some(p.bibleVersion))
  }

  /** The fetch inside `ajax_preview`: with the preview preferences in
      effect, on the cleared cache, for the preview's date. */
  function PreviewFetch(opts: Options, cache: Cache, p: PreviewSettings, today: Date, now: int, remote: RemoteApi): (f: Fetch<Calendar>)
    requires WellTyped(cache) && Valid(today)
    ensures WellTyped(f.cache)
  {
    FetchAfterClearIsFresh(PreviewOptions(opts, p), cache, PreviewDate(p.dateType, today), now, remote);
    CalendarFetch(PreviewOptions(opts, p), Cleared(cache), PreviewDate(p.dateType, today), now, remote)
  }

  /** The JSON sent back: the error message, or the preview banner and the
      calendar data. */
  datatype PreviewPayload = PreviewPayload(html: seq<Fragment>, data: Calendar)

  /** What an AJAX handler sends before it ends: `-1` from a failed nonce
      check, `wp_send_json_error` or `wp_send_json_success`. */
  datatype AjaxReply =
    | Denied
    | SendError(message: string)
    | SendSuccess(payload: Option<PreviewPayload>)

  function PreviewReply(result: Result<Calendar, WpError>, p: PreviewSettings): AjaxReply
  {
    match result
    case Failure(e) => SendError(e.message)
    case Success(data) => SendSuccess(Some(PreviewPayload(BannerMarkup(data, p.style, p.elements), data)))
  }

  /** Every date the preview asks for has three `-` parts. */
  lemma PreviewDateThreeParts(dateType: string, today: Date)
    requires Valid(today) && today.year >= 1
    ensures |Split(PreviewDate(dateType, today), '-')| == 3
  {
    var keyword := if dateType in ["last_sunday", "next_sunday"] then dateType else "today";
    PreviewDateAsShortcode(keyword, today);
    ResolvedDateHasThreeParts(keyword, today);
  }

  /** The preview always asks the remote API, with the posted preferences:
      its cache clear leaves no entry it could hit, and its date always has
      three parts. */
  lemma PreviewAsksRemote(opts: Options, cache: Cache, p: PreviewSettings, today: Date, now: int, remote: RemoteApi)
    requires WellTyped(cache) && Valid(today) && today.year >= 1
    ensures var f := PreviewFetch(opts, cache, p, today, now, remote);
      f.sent.Some?
      && f.sent.value.CalendarRequest?
      && f.sent.value.prayerBook == p.prayerBook
      && f.sent.value.bibleVersion == p.bibleVersion
      && Join([f.sent.value.year, f.sent.value.month, f.sent.value.day], "-") == PreviewDate(p.dateType, today)
      && f.result == Outcome(remote.calendar(f.sent.value))
  {
    var o := PreviewOptions(opts, p);
    var date := PreviewDate(p.dateType, today);
    var parts := Split(date, '-');
    PreviewDateThreeParts(p.dateType, today);
    FetchAfterClearIsFresh(o, cache, date, now, remote);
    RequestUsesPreferences(o, Cleared(cache), date, now, remote);
    assert parts == [parts[0], parts[1], parts[2]];
  }

  /** After the preview the cache holds no plugin entry but, at most, the
      preview day's under the preview preferences; every other entry is as
      it was. */
  lemma {:induction false} PreviewCacheAfterwards(opts: Options, cache: Cache, p: PreviewSettings, today: Date, now: int, remote: RemoteApi)
    requires WellTyped(cache) && Valid(today)
    ensures var f := PreviewFetch(opts, cache, p, today, now, remote);
      var key := CacheKey(PreviewDate(p.dateType, today), p.prayerBook, p.bibleVersion);
      (forall k :: k in f.cache && HasPrefix(k, PluginPrefix) ==> k == key)
      && (forall k :: k in cache && !HasPrefix(k, PluginPrefix) ==> k in f.cache && f.cache[k] == cache[k])
  {
    var o := PreviewOptions(opts, p);
    var date := PreviewDate(p.dateType, today);
    var cleared := Cleared(cache);
    var f := PreviewFetch(opts, cache, p, today, now, remote);
    assert f == CalendarFetch(o, cleared, date, now, remote);
    var key := CacheKey(date, PrayerBookOf(o), BibleVersionOf(o));
    assert key == CacheKey(date, p.prayerBook, p.bibleVersion);
    CacheKeyShape(date, PrayerBookOf(o), BibleVersionOf(o));
    OnlySuccessIsCached(o, cleared, date, now, remote);
    assert forall k :: k != key ==> (k in f.cache <==> k in cleared) && (k in cleared ==> f.cache[k] == cleared[k]);
    assert forall k :: k in f.cache && HasPrefix(k, PluginPrefix) ==> k == key;
    forall k | k in cache && !HasPrefix(k, PluginPrefix)
      ensures k in f.cache && f.cache[k] == cache[k]
    {
      assert k != key;
      assert k in cleared && cleared[k] == cache[k];
    }
  }

  /** The preview banner follows the shortcode banner's rules for a
      non-empty element list; for an empty one the shortcode falls back to
      `title,year,readings` but the preview shows the bare wrapper. */
  lemma PreviewVsShortcodeBanner(data: Calendar, style: string, elements: seq<string>)
    ensures |elements| > 0 ==> BannerMarkup(data, style, elements) == ShortcodeBanner(data, style, elements)
    ensures |elements| == 0 ==> BannerMarkup(data, style, elements) == [BannerOpen(style, ColorOf(data)), BannerClose]
    ensures |elements| == 0 ==> ShortcodeBanner(data, style, elements) == BannerMarkup(data, style, ["title", "year", "readings"])
  {
    if |elements| == 0 {
      assert "date" !in elements && "title" !in elements;
      assert "year" !in elements && "readings" !in elements;
    }
  }

  // ---------------------------------------------------------------------
  // render_bible_version_field

  /** One `<option>` of the bible-version select. */
  datatype Choice = Choice(value: string, text: string, selected: bool)

  /** One `<optgroup>`. */
  datatype ChoiceGroup = ChoiceGroup(heading: string, choices: seq<Choice>)

  /** The field: a text input with a warning when the list could not be
      fetched, otherwise the grouped select. */
  datatype VersionField = TextInput(value: string) | Select(groups: seq<ChoiceGroup>)

  /** `$v['language'] ?? ''`. */
  function LanguageOf(v: CatalogueEntry): string
  {
    v.language.GetOr("")
  }

  /** `array_filter` by language, order kept. */
  function InLanguage(vs: seq<CatalogueEntry>, lang: string): (r: seq<CatalogueEntry>)
    ensures |r| <= |vs|
    ensures forall v :: v in r <==> v in vs && LanguageOf(v) == lang
  {
    if |vs| == 0 then []
    else
      var last := vs[|vs| - 1];
      InLanguage(vs[..|vs| - 1], lang) + (if LanguageOf(last) == lang then [last] else [])
  }

  /** The filter keeps the order of the versions: filtering a
      concatenation filters each half, and a version of the language keeps
      its number of occurrences while any other disappears. */
  lemma {:induction false} InLanguageKeepsOrder(a: seq<CatalogueEntry>, b: seq<CatalogueEntry>, lang: string, v: CatalogueEntry)
    ensures InLanguage(a + b, lang) == InLanguage(a, lang) + InLanguage(b, lang)
    ensures multiset(InLanguage(a, lang))[v] == if LanguageOf(v) == lang then multiset(a)[v] else 0
    decreases |b|
  {
    InLanguageCount(a, lang, v);
    if |b| == 0 {
      assert a + b == a;
    } else {
      var init := b[..|b| - 1];
      var last := b[|b| - 1];
      var tail: seq<CatalogueEntry> := if LanguageOf(last) == lang then [last] else [];
      assert (a + b)[..|a + b| - 1] == a + init;
      assert (a + b)[|a + b| - 1] == last;
      InLanguageKeepsOrder(a, init, lang, v);
      calc {
        InLanguage(a + b, lang);
        InLanguage(a + init, lang) + tail;
        InLanguage(a, lang) + InLanguage(init, lang) + tail;
        InLanguage(a, lang) + (InLanguage(init, lang) + tail);
      }
    }
  }

  lemma {:induction false} InLanguageCount(vs: seq<CatalogueEntry>, lang: string, v: CatalogueEntry)
    ensures multiset(InLanguage(vs, lang))[v] == if LanguageOf(v) == lang then multiset(vs)[v] else 0
  {
    if |vs| > 0 {
      var init := vs[..|vs| - 1];
      var last := vs[|vs| - 1];
      var tail: seq<CatalogueEntry> := if LanguageOf(last) == lang then [last] else [];
      InLanguageCount(init, lang, v);
      assert vs == init + [last];
      assert multiset(vs)[v] == multiset(init)[v] + multiset([last])[v];
      assert InLanguage(vs, lang) == InLanguage(init, lang) + tail;
      assert multiset(InLanguage(vs, lang))[v] == multiset(InLanguage(init, lang))[v] + multiset(tail)[v];
    }
  }

  /** The option of one version: the lower-cased code as value, the code
      and the full name (else the name) as text, selected when the value is
      the stored setting. */
  function VersionChoice(v: CatalogueEntry, current: string): Choice
  {
    var value := Lower(v.code);
    var name := if v.fullName.Some? then v.fullName.value else v.name.GetOr("");
    Choice(value, v.code + " - " + name, current == value)
  }

  function ChoicesFor(vs: seq<CatalogueEntry>, current: string): (r: seq<Choice>)
    ensures |r| == |vs|
    ensures forall i :: 0 <= i < |vs| ==>
      r[i].value == Lower(vs[i].code) && (r[i].selected <==> current == Lower(vs[i].code))
  {
    if |vs| == 0 then []
    else ChoicesFor(vs[..|vs| - 1], current) + [VersionChoice(vs[|vs| - 1], current)]
  }

  /** The Portuguese group, then the English one, each only when it has
      members. */
  function VersionGroups(vs: seq<CatalogueEntry>, current: string): seq<ChoiceGroup>
  {
    var pt := InLanguage(vs, "pt-BR");
    var en := InLanguage(vs, "en");
    (if |pt| > 0 then [ChoiceGroup("Português", ChoicesFor(pt, current))] else [])
    + (if |en| > 0 then [ChoiceGroup("Inglês", ChoicesFor(en, current))] else [])
  }

  function VersionFieldOf(versions: Result<seq<CatalogueEntry>, WpError>, current: string): VersionField
  {
    if versions.Failure? then TextInput(current) else Select(VersionGroups(versions.value, current))
  }

  /** The versions listed: the Portuguese ones, then the English ones. */
  function Listed(vs: seq<CatalogueEntry>): seq<CatalogueEntry>
  {
    InLanguage(vs, "pt-BR") + InLanguage(vs, "en")
  }

  function AllChoices(groups: seq<ChoiceGroup>): seq<Choice>
  {
    if |groups| == 0 then [] else AllChoices(groups[..|groups| - 1]) + groups[|groups| - 1].choices
  }

  lemma {:induction false} ChoicesForAppend(a: seq<CatalogueEntry>, b: seq<CatalogueEntry>, current: string)
    ensures ChoicesFor(a + b, current) == ChoicesFor(a, current) + ChoicesFor(b, current)
    decreases |b|
  {
    if |b| == 0 {
      assert a + b == a;
    } else {
      var init := b[..|b| - 1];
      var last := VersionChoice(b[|b| - 1], current);
      assert (a + b)[..|a + b| - 1] == a + init;
      assert (a + b)[|a + b| - 1] == b[|b| - 1];
      ChoicesForAppend(a, init, current);
      calc {
        ChoicesFor(a + b, current);
        ChoicesFor(a + init, current) + [last];
        ChoicesFor(a, current) + ChoicesFor(init, current) + [last];
        ChoicesFor(a, current) + (ChoicesFor(init, current) + [last]);
      }
    }
  }

  /** The two languages share no version, so together they list at most
      every version once. */
  lemma {:induction false} LanguagesPartition(vs: seq<CatalogueEntry>, a: string, b: string)
    requires a != b
    ensures |InLanguage(vs, a)| + |InLanguage(vs, b)| <= |vs|
  {
    if |vs| > 0 {
      LanguagesPartition(vs[..|vs| - 1], a, b);
    }
  }

  /** Only `pt-BR` and `en` versions are listed, and none twice over. */
  lemma ListedVersions(vs: seq<CatalogueEntry>)
    ensures forall v :: v in Listed(vs) <==> v in vs && (LanguageOf(v) == "pt-BR" || LanguageOf(v) == "en")
    ensures |Listed(vs)| <= |vs|
    ensures multiset(Listed(vs)) <= multiset(vs)
  {
    LanguagesPartition(vs, "pt-BR", "en");
    forall v | true
      ensures multiset(Listed(vs))[v] <= multiset(vs)[v]
    {
      InLanguageCount(vs, "pt-BR", v);
      InLanguageCount(vs, "en", v);
      assert multiset(Listed(vs)) == multiset(InLanguage(vs, "pt-BR")) + multiset(InLanguage(vs, "en"));
    }
  }

  /** The Portuguese group comes first and the English one last, each
      present exactly when its language has versions (so no group is
      empty), and the options are those of the listed versions in that
      order. */
  lemma {:induction false} VersionGroupsRules(vs: seq<CatalogueEntry>, current: string)
    ensures var pt := InLanguage(vs, "pt-BR");
      var en := InLanguage(vs, "en");
      var groups := VersionGroups(vs, current);
      |groups| == (if |pt| > 0 then 1 else 0) + (if |en| > 0 then 1 else 0)
      && (|pt| > 0 ==> groups[0] == ChoiceGroup("Português", ChoicesFor(pt, current)))
      && (|en| > 0 ==> groups[|groups| - 1] == ChoiceGroup("Inglês", ChoicesFor(en, current)))
    ensures AllChoices(VersionGroups(vs, current)) == ChoicesFor(Listed(vs), current)
  {
    var pt := InLanguage(vs, "pt-BR");
    var en := InLanguage(vs, "en");
    var cp := ChoicesFor(pt, current);
    var ce := ChoicesFor(en, current);
    var gp: seq<ChoiceGroup> := if |pt| > 0 then [ChoiceGroup("Português", cp)] else [];
    var ge: seq<ChoiceGroup> := if |en| > 0 then [ChoiceGroup("Inglês", ce)] else [];
    assert VersionGroups(vs, current) == gp + ge;
    AllChoicesAppend(gp, ge);
    if |pt| > 0 {
      AllChoicesSingle(gp[0]);
    } else {
      assert AllChoices(gp) == [] && cp == [];
    }
    if |en| > 0 {
      AllChoicesSingle(ge[0]);
    } else {
      assert AllChoices(ge) == [] && ce == [];
    }
    ChoicesForAppend(pt, en, current);
    assert Listed(vs) == pt + en;
  }

  lemma {:induction false} AllChoicesAppend(a: seq<ChoiceGroup>, b: seq<ChoiceGroup>)
    ensures AllChoices(a + b) == AllChoices(a) + AllChoices(b)
    decreases |b|
  {
    if |b| == 0 {
      assert a + b == a;
    } else {
      var init := b[..|b| - 1];
      assert (a + b)[..|a + b| - 1] == a + init;
      assert (a + b)[|a + b| - 1] == b[|b| - 1];
      AllChoicesAppend(a, init);
      calc {
        AllChoices(a + b);
        AllChoices(a + init) + b[|b| - 1].choices;
        AllChoices(a) + AllChoices(init) + b[|b| - 1].choices;
        AllChoices(a) + (AllChoices(init) + b[|b| - 1].choices);
      }
    }
  }

  lemma AllChoicesSingle(g: ChoiceGroup)
    ensures AllChoices([g]) == g.choices
  {
    assert [g][..0] == [];
  }

  // ---------------------------------------------------------------------
  // The settings page

  /** `Estevao_Liturgical_Admin_Settings`. */
  class SettingsPage {
    const client: ApiClient

    constructor (client: ApiClient)
      ensures this.client == client
    {
      this.client := client;
    }

    /** `ajax_preview`: after the nonce and capability checks, puts the
        posted preferences in place, clears the cache, fetches the preview
        day, puts the stored preferences back, and answers with the error or
        with the preview banner and the data. */
    method AjaxPreview(nonceValid: bool, canManage: bool, post: Post, today: Date, now: int, remote: RemoteApi)
      returns (reply: AjaxReply)
      requires client.site.Valid() && Valid(today)
      modifies client.site
      ensures client.site.Valid()
      ensures client.site.options == old(client.site.options)
      ensures !nonceValid ==> reply == Denied
      ensures nonceValid && !canManage ==> reply == SendError("Unauthorized")
      ensures !(nonceValid && canManage) ==>
        client.site.transients == old(client.site.transients) && client.site.requests == old(client.site.requests)
      ensures nonceValid && canManage ==>
        var p := Settings(post);
        var f := PreviewFetch(old(client.site.options), old(client.site.transients), p, today, now, remote);
        reply == PreviewReply(f.result, p)
        && client.site.transients == f.cache
        && client.site.requests == old(client.site.requests) + SentLog(f.sent)
    {
      if !nonceValid {
        return Denied;
      }
      if !canManage {
        return SendError("Unauthorized");
      }
      var p := Settings(post);
      var site := client.site;
      var oldPrayerBook := site.options.prayerBook;
      var oldBibleVersion := site.options.bibleVersion;

      site.options := site.options.(prayerBook := Some(p.prayerBook));
      site.options := site.options.(bibleVersion := Some(p.bibleVersion));

      client.ClearCache();

      var date: string;
      if p.dateType == "last_sunday" {
        date := LastSundayDate(today);
      } else if p.dateType == "next_sunday" {
        date := NextSundayDate(today);
      } else {
        date := TodayDate(today);
      }

      var data := client.GetCalendar(date, now, remote);

      site.options := site.options.(prayerBook := oldPrayerBook);
      site.options := site.options.(bibleVersion := oldBibleVersion);

      if data.Failure? {
        return SendError(data.error.message);
      }
      var html := RenderBannerPreview(data.value, p.style, p.elements);
      reply := SendSuccess(Some(PreviewPayload(html, data.value)));
    }

    /** `ajax_clear_cache`: after the nonce and capability checks, clears
        the cache and answers with an empty success. */
    method AjaxClearCache(nonceValid: bool, canManage: bool) returns (reply: AjaxReply)
      requires client.site.Valid()
      modifies client.site
      ensures client.site.Valid()
      ensures client.site.options == old(client.site.options) && client.site.requests == old(client.site.requests)
      ensures !nonceValid ==> reply == Denied && client.site.transients == old(client.site.transients)
      ensures nonceValid && !canManage ==> reply == SendError("Unauthorized") && client.site.transients == old(client.site.transients)
      ensures nonceValid && canManage ==> reply == SendSuccess(None) && client.site.transients == Cleared(old(client.site.transients))
    {
      if !nonceValid {
        return Denied;
      }
      if !canManage {
        return SendError("Unauthorized");
      }
      client.ClearCache();
      reply := SendSuccess(None);
    }

    /** `render_banner_preview`: the banner of exactly the given elements,
        with no default for an empty list. */
    method RenderBannerPreview(data: Calendar, style: string, elements: seq<string>) returns (out: seq<Fragment>)
      ensures out == BannerMarkup(data, style, elements)
      ensures |elements| == 0 ==> out == [BannerOpen(style, ColorOf(data)), BannerClose]
    {
      out := BuildBanner(data, style, elements);
      PreviewVsShortcodeBanner(data, style, elements);
    }

    /** The options of one group, as the `foreach` echoes them. */
    method RenderChoices(vs: seq<CatalogueEntry>, current: string) returns (choices: seq<Choice>)
      ensures choices == ChoicesFor(vs, current)
    {
      choices := [];
      var i := 0;
      while i < |vs|
        invariant 0 <= i <= |vs|
        invariant choices == ChoicesFor(vs[..i], current)
      {
        assert vs[..i + 1][..i] == vs[..i];
        var value := Lower(vs[i].code);
        var name := if vs[i].fullName.Some? then vs[i].fullName.value else vs[i].name.GetOr("");
        choices := choices + [Choice(value, vs[i].code + " - " + name, current == value)];
        i := i + 1;
      }
      assert vs[..|vs|] == vs;
    }

    /** `render_bible_version_field`: the stored version (default `nvi`),
        then the list from the API, shown as a text input on error and as
        the grouped select otherwise. */
    method RenderBibleVersionField(now: int, remote: RemoteApi) returns (field: VersionField)
      requires client.site.Valid()
      modifies client.site
      ensures client.site.Valid()
      ensures var f := ListFetch(old(client.site.transients), BibleVersions, now, remote);
        field == VersionFieldOf(f.result, BibleVersionOf(old(client.site.options)))
        && client.site.transients == f.cache
        && client.site.requests == old(client.site.requests) + SentLog(f.sent)
      ensures client.site.options == old(client.site.options)
    {
      var current := client.site.options.bibleVersion.GetOr(DefaultBibleVersion);
      var versions := client.GetList(BibleVersions, now, remote);
      if versions.Failure? {
        return TextInput(current);
      }
      var pt := InLanguage(versions.value, "pt-BR");
      var en := InLanguage(versions.value, "en");
      var groups: seq<ChoiceGroup> := [];
      if |pt| > 0 {
        var choices := RenderChoices(pt, current);
        groups := groups + [ChoiceGroup("Português", choices)];
      }
      if |en| > 0 {
        var choices := RenderChoices(en, current);
        groups := groups + [ChoiceGroup("Inglês", choices)];
      }
      field := Select(groups);
    }
  }
}
