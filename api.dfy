/** The API client: calendar and list requests against the remote API,
    cached in the site's transient store, and the relative-date helpers.

    The host state the client reads and writes is a `Site`: the plugin's
    stored options, the transient store (one entry per transient, holding the
    value and its timeout together) and the log of outbound requests. The
    remote API is a value (`RemoteApi`) saying how it answers each request,
    and the clock is passed in (`now` in seconds, `today` in the site's time
    zone). */
module Api {
  import opened Wrappers
  import opened Text
  import opened Dates
  import opened Payload

  const PluginPrefix := "estevao_liturgical_"
  const CalendarPrefix := "estevao_liturgical_cal_"
  const PrayerBooksKey := "estevao_liturgical_prayer_books"
  const BibleVersionsKey := "estevao_liturgical_bible_versions"

  /** One hour, for calendar days; list endpoints keep 24 times as long. */
  const CacheDuration := 3600
  const ListCacheDuration := CacheDuration * 24

  const DefaultPrayerBook := "loc_2015"
  const DefaultBibleVersion := "nvi"

  /** A `WP_Error`: its code and message. */
  datatype WpError = WpError(code: string, message: string)

  const InvalidDateFormat := WpError("invalid_date", "Formato de data inválido")
  const JsonError := WpError("json_error", "Erro ao processar resposta da API")

  function ApiError(status: int): WpError
  {
    WpError("api_error", "Erro na API: código " + IntToString(status))
  }

  datatype Endpoint = PrayerBooks | BibleVersions

  /** An outbound GET: `calendar/{y}/{m}/{d}` with the two preferences, or a
      list endpoint. */
  datatype Request =
    | CalendarRequest(year: string, month: string, day: string, prayerBook: string, bibleVersion: string)
    | ListRequest(endpoint: Endpoint)

  /** What the transport returns: a transport error, or a status code and a
      body that either decodes as JSON or does not. */
  datatype Reply<T> = TransportError(error: WpError) | HttpReply(status: int, body: Option<T>)

  /** How the remote API answers, for the duration of one call. */
  datatype RemoteApi = RemoteApi(calendar: Request -> Reply<Calendar>, list: Endpoint -> Reply<ListBody>)

  /** `make_request`'s mapping of the transport's answer to a result. */
  function Outcome<T>(reply: Reply<T>): (r: Result<T, WpError>)
    ensures r.Success? <==> reply.HttpReply? && reply.status == 200 && reply.body.Some?
    ensures r.Success? ==> r.value == reply.body.value
    ensures reply.TransportError? ==> r == Failure(reply.error)
    ensures reply.HttpReply? && reply.status != 200 ==> r == Failure(ApiError(reply.status))
    ensures reply.HttpReply? && reply.status == 200 && reply.body.None? ==> r == Failure(JsonError)
  {
    match reply
    case TransportError(e) => Failure(e)
    case HttpReply(status, body) =>
      if status != 200 then Failure(ApiError(status))
      else if body.None? then Failure(JsonError)
      else Success(body.value)
  }

  datatype CacheValue = CalendarValue(calendar: Calendar) | ListValue(items: seq<CatalogueEntry>) | OtherValue

  /** A transient: its value, the TTL it was set with, and its timeout. */
  datatype Transient = Transient(value: CacheValue, ttl: nat, expires: int)

  type Cache = map<string, Transient>

  /** `get_transient` finds the entry: present and not past its timeout. */
  predicate IsLive(cache: Cache, key: string, now: int)
  {
    key in cache && now <= cache[key].expires
  }

  /** `get_transient` deletes an entry that is past its timeout. */
  function Expire(cache: Cache, key: string, now: int): Cache
  {
    if key in cache && cache[key].expires < now then cache - {key} else cache
  }

  /** Calendar keys hold calendar payloads and the two list keys hold lists. */
  predicate WellTyped(cache: Cache)
  {
    forall k :: k in cache ==>
      (HasPrefix(k, CalendarPrefix) ==> cache[k].value.CalendarValue?)
      && (k == PrayerBooksKey || k == BibleVersionsKey ==> cache[k].value.ListValue?)
  }

  /** The transient name of a calendar day for the given preferences. */
  function CacheKey(date: string, prayerBook: string, bibleVersion: string): string
  {
    CalendarPrefix + date + "_" + prayerBook + "_" + bibleVersion
  }

  function ListKey(e: Endpoint): string
  {
    match e
    case PrayerBooks => PrayerBooksKey
    case BibleVersions => BibleVersionsKey
  }

  lemma CacheKeyShape(date: string, prayerBook: string, bibleVersion: string)
    ensures HasPrefix(CacheKey(date, prayerBook, bibleVersion), CalendarPrefix)
    ensures HasPrefix(CacheKey(date, prayerBook, bibleVersion), PluginPrefix)
  {
    var k := CacheKey(date, prayerBook, bibleVersion);
    assert k[..|CalendarPrefix|] == CalendarPrefix;
    assert k[..|PluginPrefix|] == CalendarPrefix[..|PluginPrefix|];
  }

  lemma ListKeyShape(e: Endpoint)
    ensures !HasPrefix(ListKey(e), CalendarPrefix)
    ensures HasPrefix(ListKey(e), PluginPrefix)
  {
    var k := ListKey(e);
    assert k[19] != CalendarPrefix[19];
    assert k[..|PluginPrefix|] == PluginPrefix;
  }

  /** The plugin's stored options, each absent until saved. */
  datatype Options = Options(
    prayerBook: Option<string>,
    bibleVersion: Option<string>,
    bannerStyle: Option<string>,
    bannerElements: Option<seq<string>>)

  function PrayerBookOf(o: Options): string
  {
    o.prayerBook.GetOr(DefaultPrayerBook)
  }

  function BibleVersionOf(o: Options): string
  {
    o.bibleVersion.GetOr(DefaultBibleVersion)
  }

  /** The effect of one fetch: its result, the cache afterwards and the
      request it sent, if any. */
  datatype Fetch<T> = Fetch(result: Result<T, WpError>, cache: Cache, sent: Option<Request>)

  function SentLog(sent: Option<Request>): seq<Request>
  {
    if sent.Some? then [sent.value] else []
  }

  /** `get_calendar`: a live cache entry under the day's key is returned
      without a request; otherwise a date that does not split into three
      parts is an `invalid_date` error, and any other date is requested and
      the answer cached for an hour when it is a success. */
  function CalendarFetch(opts: Options, cache: Cache, date: string, now: int, remote: RemoteApi): (f: Fetch<Calendar>)
    requires WellTyped(cache)
    ensures WellTyped(f.cache)
  {
    var pb := PrayerBookOf(opts);
    var bv := BibleVersionOf(opts);
    var key := CacheKey(date, pb, bv);
    CacheKeyShape(date, pb, bv);
    if IsLive(cache, key, now) then
      Fetch(Success(cache[key].value.calendar), cache, None)
    else
      var c := Expire(cache, key, now);
      var parts := Split(date, '-');
      if |parts| != 3 then Fetch(Failure(InvalidDateFormat), c, None)
      else
        var req := CalendarRequest(parts[0], parts[1], parts[2], pb, bv);
        var r := Outcome(remote.calendar(req));
        if r.Success? then
          ListKeyShape(PrayerBooks);
          ListKeyShape(BibleVersions);
          Fetch(r, c[key := Transient(CalendarValue(r.value), CacheDuration, now + CacheDuration)], Some(req))
        else Fetch(r, c, Some(req))
  }

  /** `get_prayer_books` / `get_bible_versions`: a live entry is returned as
      it is; otherwise the endpoint is requested, a success carrying `data`
      is cached for a day and its `data` returned, a success without `data`
      gives an empty list and caches nothing, and an error is passed on. */
  function ListFetch(cache: Cache, e: Endpoint, now: int, remote: RemoteApi): (f: Fetch<seq<CatalogueEntry>>)
    requires WellTyped(cache)
    ensures WellTyped(f.cache)
  {
    var key := ListKey(e);
    ListKeyShape(e);
    if IsLive(cache, key, now) then
      Fetch(Success(cache[key].value.items), cache, None)
    else
      var c := Expire(cache, key, now);
      var r := Outcome(remote.list(e));
      if r.Failure? then Fetch(Failure(r.error), c, Some(ListRequest(e)))
      else if r.value.data.None? then Fetch(Success([]), c, Some(ListRequest(e)))
      else
        var data := r.value.data.value;
        Fetch(Success(data), c[key := Transient(ListValue(data), ListCacheDuration, now + ListCacheDuration)], Some(ListRequest(e)))
  }

  /** `clear_cache`: every transient (value and timeout) under the plugin's
      prefix is deleted, and nothing else. */
  function Cleared(cache: Cache): (c: Cache)
    ensures forall k :: k in c ==> !HasPrefix(k, PluginPrefix)
    ensures forall k :: k in cache && !HasPrefix(k, PluginPrefix) ==> k in c && c[k] == cache[k]
    ensures forall k :: k in c ==> k in cache
  {
    map k | k in cache && !HasPrefix(k, PluginPrefix) :: cache[k]
  }

  // ---------------------------------------------------------------------
  // Properties of the fetches

  /** A live entry is served as it is: no request, no change to the cache. */
  lemma CacheHitServesStored(opts: Options, cache: Cache, date: string, now: int, remote: RemoteApi)
    requires WellTyped(cache)
    requires IsLive(cache, CacheKey(date, PrayerBookOf(opts), BibleVersionOf(opts)), now)
    ensures var f := CalendarFetch(opts, cache, date, now, remote);
      f.sent.None? && f.cache == cache
      && f.result == Success(cache[CacheKey(date, PrayerBookOf(opts), BibleVersionOf(opts))].value.calendar)
  {
  }

  /** Only successes are stored, under the day's key with a one-hour TTL; a
      failure leaves the cache as reading it left it. */
  lemma {:induction false} OnlySuccessIsCached(opts: Options, cache: Cache, date: string, now: int, remote: RemoteApi)
    requires WellTyped(cache)
    ensures var key := CacheKey(date, PrayerBookOf(opts), BibleVersionOf(opts));
      var f := CalendarFetch(opts, cache, date, now, remote);
      (f.result.Failure? ==> f.cache == Expire(cache, key, now))
      && (f.sent.Some? && f.result.Success? ==>
            f.cache == Expire(cache, key, now)[key := Transient(CalendarValue(f.result.value), 3600, now + 3600)])
      && (forall k :: k != key ==> (k in f.cache <==> k in cache) && (k in cache ==> f.cache[k] == cache[k]))
  {
  }

  /** A date that does not split into three `-` parts is refused on a miss,
      without a request and without storing anything. */
  lemma MalformedDateRefused(opts: Options, cache: Cache, date: string, now: int, remote: RemoteApi)
    requires WellTyped(cache)
    requires !IsLive(cache, CacheKey(date, PrayerBookOf(opts), BibleVersionOf(opts)), now)
    requires |Split(date, '-')| != 3
    ensures var f := CalendarFetch(opts, cache, date, now, remote);
      f.result == Failure(InvalidDateFormat) && f.sent.None?
      && f.cache == Expire(cache, CacheKey(date, PrayerBookOf(opts), BibleVersionOf(opts)), now)
  {
  }

  /** A request carries the date's three parts and the stored preferences. */
  lemma RequestUsesPreferences(opts: Options, cache: Cache, date: string, now: int, remote: RemoteApi)
    requires WellTyped(cache)
    ensures var f := CalendarFetch(opts, cache, date, now, remote);
      f.sent.Some? ==>
        var parts := Split(date, '-');
        |parts| == 3 && Join(parts, "-") == date
        && f.sent.value == CalendarRequest(parts[0], parts[1], parts[2], PrayerBookOf(opts), BibleVersionOf(opts))
  {
    JoinSplit(date, '-');
  }

  /** Keys that differ in their length differ. */
  lemma KeyLengths(a: string, b: string, c: string, a': string, b': string, c': string)
    requires |a| + |b| + |c| != |a'| + |b'| + |c'|
    ensures CacheKey(a, b, c) != CacheKey(a', b', c')
  {
    assert |CacheKey(a, b, c)| == |CalendarPrefix| + |a| + |b| + |c| + 2;
  }

  /** Two equal-length texts that differ somewhere, with the same text before
      and after them, make different strings. */
  lemma DifferentMiddle(pre: string, x: string, y: string, post: string)
    requires |x| == |y| && x != y
    ensures pre + x + post != pre + y + post
  {
    var i :| 0 <= i < |x| && x[i] != y[i];
    assert (pre + x + post)[|pre| + i] == x[i];
    assert (pre + y + post)[|pre| + i] == y[i];
  }

  /** Changing exactly one of date, prayer book and bible version always
      changes the key, so a cached day is never served for other preferences. */
  lemma {:induction false} KeyChangesWithEachComponent(date: string, pb: string, bv: string, other: string)
    ensures other != date ==> CacheKey(other, pb, bv) != CacheKey(date, pb, bv)
    ensures other != pb ==> CacheKey(date, other, bv) != CacheKey(date, pb, bv)
    ensures other != bv ==> CacheKey(date, pb, other) != CacheKey(date, pb, bv)
  {
    if other != date {
      if |other| != |date| { KeyLengths(other, pb, bv, date, pb, bv); }
      else {
        DifferentMiddle(CalendarPrefix, other, date, "_" + pb + "_" + bv);
        assert CacheKey(other, pb, bv) == CalendarPrefix + other + ("_" + pb + "_" + bv);
        assert CacheKey(date, pb, bv) == CalendarPrefix + date + ("_" + pb + "_" + bv);
      }
    }
    if other != pb {
      if |other| != |pb| { KeyLengths(date, other, bv, date, pb, bv); }
      else {
        DifferentMiddle(CalendarPrefix + date + "_", other, pb, "_" + bv);
        assert CacheKey(date, other, bv) == (CalendarPrefix + date + "_") + other + ("_" + bv);
        assert CacheKey(date, pb, bv) == (CalendarPrefix + date + "_") + pb + ("_" + bv);
      }
    }
    if other != bv {
      if |other| != |bv| { KeyLengths(date, pb, other, date, pb, bv); }
      else {
        DifferentMiddle(CalendarPrefix + date + "_" + pb + "_", other, bv, "");
        assert CacheKey(date, pb, other) == (CalendarPrefix + date + "_" + pb + "_") + other + "";
        assert CacheKey(date, pb, bv) == (CalendarPrefix + date + "_" + pb + "_") + bv + "";
      }
    }
  }

  /** Changing two components at once can keep the key: `_` is both the
      separator and a legal character of a prayer-book code. */
  lemma KeyCollidesAcrossTwoComponents()
    ensures CacheKey("2024-06-09", "loc", "2015_nvi") == CacheKey("2024-06-09", "loc_2015", "nvi")
  {
  }

  /** After `clear_cache` no calendar day is found in the cache. */
  lemma {:induction false} ClearedCacheMisses(cache: Cache, date: string, pb: string, bv: string, now: int)
    ensures !IsLive(Cleared(cache), CacheKey(date, pb, bv), now)
  {
    CacheKeyShape(date, pb, bv);
  }

  /** So the fetch that follows `clear_cache` is answered by the remote API
      (or refuses the date), never by the cache, and it adds just the fresh
      answer to the cleared cache. */
  lemma {:induction false} FetchAfterClearIsFresh(opts: Options, cache: Cache, date: string, now: int, remote: RemoteApi)
    requires WellTyped(cache)
    ensures WellTyped(Cleared(cache))
    ensures var f := CalendarFetch(opts, Cleared(cache), date, now, remote);
      var parts := Split(date, '-');
      (|parts| == 3 ==> f.sent.Some? && f.result == Outcome(remote.calendar(f.sent.value)))
      && (|parts| != 3 ==> f.result == Failure(InvalidDateFormat) && f.cache == Cleared(cache))
  {
    ClearedCacheMisses(cache, date, PrayerBookOf(opts), BibleVersionOf(opts), now);
  }

  /** A list answer with `data` is cached for a day and its `data` returned; a
      success without `data` gives an empty list and stores nothing; an error
      is returned unchanged and stores nothing. */
  lemma ListFetchOutcomes(cache: Cache, e: Endpoint, now: int, remote: RemoteApi)
    requires WellTyped(cache)
    requires !IsLive(cache, ListKey(e), now)
    ensures var f := ListFetch(cache, e, now, remote);
      var r := Outcome(remote.list(e));
      var c := Expire(cache, ListKey(e), now);
      f.sent == Some(ListRequest(e))
      && (r.Success? && r.value.data.Some? ==>
            f.result == Success(r.value.data.value)
            && f.cache == c[ListKey(e) := Transient(ListValue(r.value.data.value), 86400, now + 86400)])
      && (r.Success? && r.value.data.None? ==> f.result == Success([]) && f.cache == c)
      && (r.Failure? ==> f.result == Failure(r.error) && f.cache == c)
  {
  }

  /** `get_today_date`, `get_last_sunday_date`, `get_next_sunday_date`. */
  function TodayDate(today: Date): string
    requires Valid(today)
  {
    Format(today)
  }

  function LastSundayDate(today: Date): string
    requires Valid(today)
  {
    Format(LastSunday(today))
  }

  function NextSundayDate(today: Date): string
    requires Valid(today)
  {
    Format(NextSunday(today))
  }

  /** The formatted Sundays are always a different day from today. */
  lemma {:induction false} SundaysAreNotToday(today: Date)
    requires Valid(today)
    ensures LastSundayDate(today) != TodayDate(today)
    ensures NextSundayDate(today) != TodayDate(today)
  {
    FormatInjective(LastSunday(today), today);
    FormatInjective(NextSunday(today), today);
  }

  // ---------------------------------------------------------------------
  // Host state

  /** The WordPress state the plugin touches. */
  class Site {
    var options: Options
    var transients: Cache
    var requests: seq<Request>

    ghost predicate Valid()
      reads this
    {
      WellTyped(transients)
    }

    constructor (options: Options, transients: Cache)
      requires WellTyped(transients)
      ensures Valid()
      ensures this.options == options && this.transients == transients && requests == []
    {
      this.options := options;
      this.transients := transients;
      requests := [];
    }

    /** `get_transient`: the value of a live entry; an expired one is deleted. */
    method GetTransient(key: string, now: int) returns (v: Option<CacheValue>)
      requires Valid()
      modifies this
      ensures Valid()
      ensures v.Some? <==> IsLive(old(transients), key, now)
      ensures v.Some? ==> v.value == old(transients)[key].value
      ensures transients == Expire(old(transients), key, now)
      ensures options == old(options) && requests == old(requests)
    {
      v := None;
      if key in transients {
        if transients[key].expires < now {
          transients := transients - {key};
        } else {
          v := Some(transients[key].value);
        }
      }
    }

    /** `set_transient` with a positive TTL. */
    method SetTransient(key: string, value: CacheValue, ttl: nat, now: int)
      requires Valid()
      requires HasPrefix(key, CalendarPrefix) ==> value.CalendarValue?
      requires key == PrayerBooksKey || key == BibleVersionsKey ==> value.ListValue?
      modifies this
      ensures Valid()
      ensures transients == old(transients)[key := Transient(value, ttl, now + ttl)]
      ensures options == old(options) && requests == old(requests)
    {
      transients := transients[key := Transient(value, ttl, now + ttl)];
    }
  }

  /** `Estevao_Liturgical_API_Client`. */
  class ApiClient {
    const site: Site

    constructor (site: Site)
      ensures this.site == site
    {
      this.site := site;
    }

    /** `make_request`: sends the request (the transport answers `reply`). */
    method MakeRequest<T>(req: Request, reply: Reply<T>) returns (r: Result<T, WpError>)
      modifies site
      ensures r == Outcome(reply)
      ensures site.requests == old(site.requests) + [req]
      ensures site.options == old(site.options) && site.transients == old(site.transients)
    {
      site.requests := site.requests + [req];
      match reply {
        case TransportError(e) =>
          r := Failure(e);
        case HttpReply(status, body) =>
          if status != 200 {
            r := Failure(ApiError(status));
          } else if body.None? {
            r := Failure(JsonError);
          } else {
            r := Success(body.value);
          }
      }
    }

    method GetCalendar(date: string, now: int, remote: RemoteApi) returns (r: Result<Calendar, WpError>)
      requires site.Valid()
      modifies site
      ensures site.Valid()
      ensures var f := CalendarFetch(old(site.options), old(site.transients), date, now, remote);
        r == f.result && site.transients == f.cache
        && site.requests == old(site.requests) + SentLog(f.sent)
      ensures site.options == old(site.options)
    {
      var pb := site.options.prayerBook.GetOr(DefaultPrayerBook);
      var bv := site.options.bibleVersion.GetOr(DefaultBibleVersion);
      var key := CacheKey(date, pb, bv);
      CacheKeyShape(date, pb, bv);
      var cached := site.GetTransient(key, now);
      if cached.Some? {
        return Success(cached.value.calendar);
      }
      var parts := Split(date, '-');
      if |parts| != 3 {
        return Failure(InvalidDateFormat);
      }
      var req := CalendarRequest(parts[0], parts[1], parts[2], pb, bv);
      r := MakeRequest(req, remote.calendar(req));
      if r.Success? {
        ListKeyShape(PrayerBooks);
        ListKeyShape(BibleVersions);
        site.SetTransient(key, CalendarValue(r.value), CacheDuration, now);
      }
    }

    /** `get_prayer_books` (`PrayerBooks`) and `get_bible_versions` (`BibleVersions`). */
    method GetList(e: Endpoint, now: int, remote: RemoteApi) returns (r: Result<seq<CatalogueEntry>, WpError>)
      requires site.Valid()
      modifies site
      ensures site.Valid()
      ensures var f := ListFetch(old(site.transients), e, now, remote);
        r == f.result && site.transients == f.cache
        && site.requests == old(site.requests) + SentLog(f.sent)
      ensures site.options == old(site.options)
    {
      var key := ListKey(e);
      ListKeyShape(e);
      var cached := site.GetTransient(key, now);
      if cached.Some? {
        return Success(cached.value.items);
      }
      var response := MakeRequest(ListRequest(e), remote.list(e));
      if response.Success? && response.value.data.Some? {
        site.SetTransient(key, ListValue(response.value.data.value), ListCacheDuration, now);
        return Success(response.value.data.value);
      }
      r := if response.Failure? then Failure(response.error) else Success([]);
    }

    /** `clear_cache`. */
    method ClearCache()
      requires site.Valid()
      modifies site
      ensures site.Valid()
      ensures site.transients == Cleared(old(site.transients))
      ensures site.options == old(site.options) && site.requests == old(site.requests)
    {
      site.transients := Cleared(site.transients);
    }
  }
}
