# Estêvão liturgical calendar — a verified model

This project models the core of the WordPress plugin "Estêvão liturgical
calendar", which shows the Anglican liturgical calendar of the Caminho
Anglicano API on a WordPress site. The model is written in Dafny and is
proved by Dafny's verifier. It covers six parts of the plugin:

- the `[liturgical_calendar]` and `[liturgical_banner]` shortcodes:
  - date tokens (`today`, `last_sunday`, `next_sunday` or a strict `Y-m-d` date);
  - the `show` whitelist;
  - the per-field rules;
  - the fixed-order readings;
  - the banner's style, elements, colour, title and readings summary;
  - the error short-circuit.
- the API client: the transient cache keyed by date and preferences, the two
  list endpoints, the outcome of a request, `clear_cache`, and the dates of
  today and the last and next Sunday;
- the settings page: element sanitising, the preview and cache-clearing
  AJAX handlers, the preview banner and the bible-version choices grouped
  by language;
- the settings-page script: the form data and the generated
  `[liturgical_banner]` shortcode.

Files:

| file | module | what it holds |
|---|---|---|
| `wrappers.dfy` | `Wrappers` | `Option`, `Result` |
| `text.dfy` | `Text` | `explode`, `implode`, `trim`, `array_intersect`, `strtolower`, decimal digits |
| `dates.dfy` | `Dates` | Gregorian dates, day numbers and weekdays, `Y-m-d` formatting and parsing |
| `payload.dfy` | `Payload`, `Html` | the API's calendar JSON as datatypes, PHP `empty()`, markup fragments |
| `api.dfy` | `Api` | the site state (`Site`), the API client (`ApiClient`) and the fetch rules as functions |
| `banner.dfy` | `Banner` | the banner rules shared by the banner shortcode and the settings preview |
| `shortcodes.dfy` | `Shortcodes` | `Estevao_Liturgical_Shortcodes` |
| `admin.dfy` | `AdminSettings` | `Estevao_Liturgical_Admin_Settings` |
| `admin_script.dfy` | `AdminScript` | `getFormData`, `updateGeneratedShortcode` |

Conventions used throughout:

- Markup is a sequence of abstract fragments, one per element the PHP
  echoes. Escaping, translation and class sanitising are left out.
- A JSON value is `Option<string>`: `None` stands for absent or `null`.
- An object that PHP's `empty()` inspects also carries `extra`, which says
  whether it has keys the plugin does not read.
- The WordPress state is a `Site` object with three fields:
  - the plugin's four options, each absent until saved;
  - the transients, each with its expiry time;
  - the log of outbound requests.
- The clock is passed in as today's date and `now`. The remote API is
  passed in as a function from a request to its reply.

## Model

| member | source | states |
|---|---|---|
| Shortcodes.ResolveDate | includes/class-shortcodes.php:82-101 | `today`, `last_sunday` and `next_sunday` give the helpers' dates. Any other string is accepted, unchanged, exactly when it is a canonical `YYYY-MM-DD` date. Otherwise the result is the `invalid_date` error. |
| Dates.RoundTripsIffCanonical | includes/class-shortcodes.php:95-96 | `createFromFormat('Y-m-d')` followed by `format('Y-m-d')` gives the input back exactly when the input is a canonical date: four digits, two digits and two digits, with the month and day in range. |
| Shortcodes.ResolvedDateHasThreeParts | includes/class-shortcodes.php:82-101 | Every date `resolve_date` accepts splits into three `-` parts, so the API client's own date check never fails on it. |
| Shortcodes.ParseShow | includes/class-shortcodes.php:109-118 | The result is never empty and lies within the nine fields. An empty attribute, or one naming no known field, gives all nine fields. Otherwise the result is the trimmed known items in the given order. |
| Shortcodes.ShowKeepsRepetitions | includes/class-shortcodes.php:114-117 | Each known field appears as often as the user wrote it, and unknown items never appear. |
| Shortcodes.ShowRoundTrip | includes/class-shortcodes.php:109-118 | Joining known fields with commas and parsing the result gives the same list back. |
| Shortcodes.DayName | includes/class-shortcodes.php:218-229 | The day name is `sunday_name`, else the celebration name, else `day_of_week`. It is empty exactly when all three are empty. |
| Shortcodes.FieldSuppression | includes/class-shortcodes.php:148-210 | `date`, `season`, `color` and `year` show their line, holding the value, exactly when the value is non-empty. `day_name` is shown exactly when a day name exists. `collect` is shown exactly when collects exist. |
| Shortcodes.CelebrationRules | includes/class-shortcodes.php:324-350 | The celebration block is absent exactly when the celebration is empty. Its name, description and colour lines each appear exactly when that value is non-empty. |
| Shortcodes.ReadingsInOrder | includes/class-shortcodes.php:274-316 | The readings block is empty exactly when `readings` is absent or empty. Otherwise it lists the non-empty readings in the order first reading, psalm, second reading, gospel. |
| Shortcodes.VersesOnlyWhenFull | includes/class-shortcodes.php:299-308 | With its verse blocks removed, the full readings markup equals the summary markup. The summary markup has no verse blocks. |
| Shortcodes.CalendarOrError | includes/class-shortcodes.php:127-139 | Calendar markup is framed by its wrapper and never holds an error block. An error's markup is one error block. |
| Shortcodes.FieldsFromAppend | includes/class-shortcodes.php:132-134 | The fields' markup is each field's markup in the order given. |
| Shortcodes.ShortcodeRenderer.RenderCollects | includes/class-shortcodes.php:237-265 | The loop builds exactly the collects markup. |
| Shortcodes.ShortcodeRenderer.RenderReadings | includes/class-shortcodes.php:274-316 | The loop builds exactly the readings markup of the fixed order. |
| Shortcodes.ShortcodeRenderer.RenderCalendar | includes/class-shortcodes.php:127-139 | The loop over the fields builds exactly the wrapper plus each field's markup in order. |
| Shortcodes.ShortcodeRenderer.RenderShortcode | includes/class-shortcodes.php:51-73 | An unresolvable date yields only an error block, with no fetch. A failed fetch yields only its error block. Otherwise the output is the calendar of the parsed fields. The cache and request log change exactly as `get_calendar` changes them, and the options never change. |
| Shortcodes.ShortcodeRenderer.RenderBannerShortcode | includes/class-shortcodes.php:368-404 | There are the same two error short-circuits. Otherwise the output is the banner with the chosen style and elements. |
| Banner.ChooseStyle | includes/class-shortcodes.php:388-391 | A style attribute naming one of the four styles wins. Otherwise the stored style (default `simple`) is used. |
| Banner.ElementsChoice | includes/class-shortcodes.php:393-401 | The requested elements are the known ones. The result is those when there are any, otherwise the stored list (default `title,year,readings`). |
| Banner.ShortcodeBannerDefaults | includes/class-shortcodes.php:415-417 | `render_banner` substitutes `title,year,readings` for an empty list and otherwise uses the list given. |
| Banner.ColorPrecedence | includes/class-shortcodes.php:420-423 | A non-empty celebration colour wins. Otherwise the liturgical colour as stored is used, even when it is empty. Otherwise the colour is `verde`. |
| Banner.TitleRules | includes/class-shortcodes.php:429-441 | The title is the non-empty celebration name and season joined by ` - `, else `sunday_name`. It is empty exactly when all three are empty. |
| Banner.ReadingRefsInOrder | includes/class-shortcodes.php:444-458 | The summary is `1a Leit.`, `Sl`, `2a Leit.` and `Ev.` with their references, in that order, skipping missing references. It is empty exactly when every reference is empty. |
| Banner.BannerBlocks | includes/class-shortcodes.php:461-486 | Each of the date, title, year and readings blocks appears exactly when its element is listed and its data is non-empty. |
| Banner.BannerFrame | includes/class-shortcodes.php:461-487 | The banner opens with its style and colour, ends with its closing fragment and holds no error block. |
| Banner.BannerBodyByMembership | includes/class-shortcodes.php:464-485 | Only which elements are listed matters, not their order or repetitions. |
| Banner.BuildBanner | includes/class-shortcodes.php:414-490 | The step-by-step construction equals the banner specification. |
| Banner.CollectReadingRefs | includes/class-shortcodes.php:443-458 | The loop builds the labelled references of the fixed order. |
| Api.Outcome | includes/class-api-client.php:117-147 | A transport error is passed through. A status other than 200 gives `api_error` with the code. An undecodable body gives `json_error`. Otherwise the decoded data is returned. |
| Api.CacheHitServesStored | includes/class-api-client.php:34-39 | A live entry under the day's key is returned with no request and no change to the cache. |
| Api.OnlySuccessIsCached | includes/class-api-client.php:54-60 | Only a success is stored, under the day's key with a 3600-second lifetime. A failure stores nothing, and no other key changes. |
| Api.MalformedDateRefused | includes/class-api-client.php:41-44 | On a miss, a date without exactly three `-` parts gives `invalid_date`, with no request and no store. |
| Api.RequestUsesPreferences | includes/class-api-client.php:46-54 | A request carries the date's three parts and the stored prayer book and bible version. |
| Api.KeyChangesWithEachComponent | includes/class-api-client.php:34 | Changing any one of date, prayer book or bible version changes the cache key. |
| Api.KeyCollidesAcrossTwoComponents | includes/class-api-client.php:34 | Two components changed together can give the same key, because values may contain `_`. |
| Api.ListFetchOutcomes | includes/class-api-client.php:68-109 | On a miss, a success with `data` is stored for 86400 seconds and `data` is returned. A success without `data` gives an empty list and stores nothing. An error is returned unchanged. |
| Api.Cleared | includes/class-api-client.php:152-157 | No plugin-prefixed entry remains, every other entry is untouched, and nothing is added. |
| Api.FetchAfterClearIsFresh | includes/class-api-client.php:152-157 | After `clear_cache` the next `get_calendar` is answered by the remote API, never by the cache. |
| Api.SundaysAreNotToday | includes/class-api-client.php:164-197 | Neither the last nor the next Sunday's date is ever today's date. |
| Dates.LastSunday | includes/class-api-client.php:164-177 | The result is a Sunday 1 to 7 days before today, exactly 7 when today is a Sunday, with no Sunday in between. |
| Dates.NextSunday | includes/class-api-client.php:184-197 | The result is a Sunday 1 to 7 days after today, exactly 7 when today is a Sunday, with no Sunday in between. |
| Api.ApiClient.GetCalendar | includes/class-api-client.php:30-61 | The method's result, cache and request log are those of the `get_calendar` specification, and the options never change. |
| Api.ApiClient.GetList | includes/class-api-client.php:68-109 | The method's result, cache and request log are those of the list specification. |
| Api.ApiClient.MakeRequest | includes/class-api-client.php:117-147 | The request is logged once and its outcome is mapped as above. |
| Api.ApiClient.ClearCache | includes/class-api-client.php:152-157 | The cache becomes its cleared form, and the options and request log do not change. |
| AdminSettings.SanitizeBannerElements | includes/class-admin-settings.php:148-154 | A non-array gives `title,year,readings`. An array keeps exactly its members that are valid element names. |
| AdminSettings.SanitizeKeepsOrder | includes/class-admin-settings.php:152-153 | Sanitising keeps the input order and the repetitions of valid names. |
| AdminSettings.SanitizeIdempotent | includes/class-admin-settings.php:148-154 | Sanitising twice is sanitising once, and the result holds only banner element names. |
| AdminSettings.Settings | includes/class-admin-settings.php:210-214 | Missing POST fields default to `loc_2015`, `nvi`, `simple`, `title,year,readings` and `today`. |
| AdminSettings.PreviewDateAsShortcode | includes/class-admin-settings.php:227-236 | The three date keywords resolve as the shortcode resolves them. Any other date type means today. |
| AdminSettings.PreviewAsksRemote | includes/class-admin-settings.php:217-239 | The preview's fetch always goes to the remote API, with the posted prayer book and bible version. It cannot hit an old cache entry. |
| AdminSettings.PreviewCacheAfterwards | includes/class-admin-settings.php:224-239 | Afterwards the only plugin entry left is, at most, the preview day's. Every non-plugin entry is untouched. |
| AdminSettings.PreviewVsShortcodeBanner | includes/class-admin-settings.php:275-338 | For non-empty elements the preview banner equals the shortcode banner. For empty ones the preview is the bare wrapper, while the shortcode falls back to the default elements. |
| AdminSettings.SettingsPage.AjaxPreview | includes/class-admin-settings.php:203-256 | A bad nonce or a missing capability is refused before any change. Otherwise the fetch runs with the posted preferences on the cleared cache, and the reply is the error or the preview banner with the data. The stored options are always the same afterwards. |
| AdminSettings.SettingsPage.AjaxClearCache | includes/class-admin-settings.php:261-270 | A refused caller changes nothing. Otherwise the cache is cleared and an empty success is sent. |
| AdminSettings.SettingsPage.RenderBannerPreview | includes/class-admin-settings.php:275-338 | The preview uses the banner's colour, title and readings rules for exactly the given elements. With no elements it is the bare wrapper. |
| AdminSettings.InLanguage | includes/class-admin-settings.php:393-394 | The filter keeps exactly the versions of the given language, and never lengthens the list. |
| AdminSettings.InLanguageKeepsOrder | includes/class-admin-settings.php:393-394 | Filtering a concatenation filters each half, so the order is kept. A version of the language keeps its number of occurrences, and any other version disappears. |
| AdminSettings.ChoicesFor | includes/class-admin-settings.php:400-403 | Each option's value is the lower-cased code. It is selected exactly when that value is the stored setting. |
| AdminSettings.ListedVersions | includes/class-admin-settings.php:393-394 | The listed versions are exactly those whose language is `pt-BR` or `en`. As a multiset they lie within the input, so no version appears in both groups and none appears more often than it was returned. |
| AdminSettings.VersionGroupsRules | includes/class-admin-settings.php:398-414 | The Portuguese group comes first and the English one last. Each group is present exactly when its language has versions, so no group is empty. The options are those of the listed versions, in order. |
| AdminSettings.SettingsPage.RenderChoices | includes/class-admin-settings.php:400-403 | The loop builds exactly the options of the group. |
| AdminSettings.SettingsPage.RenderBibleVersionField | includes/class-admin-settings.php:383-418 | A failed list gives a text input holding the stored version. Otherwise it gives the grouped select. The cache and request log change as the list fetch changes them. |
| AdminScript.FormDataOf | assets/js/admin.js:82-95 | The select's value is used, else the text input's. No checked element gives `title,year,readings`, no style gives `simple`, and no date type gives `today`. |
| AdminScript.GetFormData | assets/js/admin.js:82-95 | The loop over the checkboxes builds exactly that form data. |
| AdminScript.CheckedValues | assets/js/admin.js:83-85 | The elements are exactly the values of the checked boxes, and never more than the boxes. |
| AdminScript.CheckedValuesKeepOrder | assets/js/admin.js:83-85 | The values of two runs of boxes are those of the first run, then those of the second, so the page order is kept. Each value occurs as often as a checked box carries it. |
| AdminScript.UpdateGeneratedShortcode | assets/js/admin.js:100-130 | The step-by-step construction equals the shortcode specification. |
| AdminScript.ShortcodeAttributes | assets/js/admin.js:104-121 | `date` is present exactly when the date type is not `today`, and `style` exactly when the style is not `simple`. `show` is present exactly when there are not three elements or one is outside the default set; its value is the elements joined by `,`. No other attribute appears. |
| AdminScript.ShortcodeShape | assets/js/admin.js:100-127 | The shortcode is `[liturgical_banner`, then each present attribute after one space in the order date, style, show, then `]`. |
| AdminScript.DefaultShortcode | assets/js/admin.js:100-130 | Date type `today`, style `simple` and any permutation of `title,year,readings` give exactly `[liturgical_banner]`. |
| AdminScript.ShortcodeReproducesPreview | assets/js/admin.js:100-130 | The generated shortcode's date resolves to the preview's date and its style is the chosen one. Its elements are the chosen ones, or the stored ones when the choice is the default. With nothing stored, that is the same banner. |

## Left out

- WordPress wiring is left out: hook and shortcode registration, the settings API, menus, asset enqueueing, the settings-page layout and the prayer-book select. They do not change what the modelled code computes.
- The HTTP transport and JSON decoding are left out. A reply is an abstract transport error, or a status with a body that either decodes or does not.
- Escaping is left out: `esc_html`, `esc_attr`, `sanitize_html_class`, `wp_kses_post`, `nl2br`, `ucfirst` and translation `__()`. Fragments carry the raw values.
- `sanitize_text_field` on the posted preview fields is taken as the identity.
- The nonce check is a boolean parameter, and so is `current_user_can`.
- AdminSettings.SettingsPage.AjaxPreview: an option that was never saved is put back as absent. WordPress instead stores the registered default (`loc_2015` or `nvi`), which `get_option` returns for the missing option. `PrayerBookOf` and `BibleVersionOf` read the same value either way.
- Api.Cleared: the SQL `LIKE` in `clear_cache` treats `_` as a wildcard. The model deletes by exact prefix, and the two differ only for keys the plugin never writes.
- Cached values are modelled only as the calendar or list that was stored. A stored `false` or `null` payload, and non-string JSON scalars or non-array values where arrays are expected, are not modelled.
- Dates.ParseYmd reads a year of at most four digits, the width of the `Y` format character. The formatted dates the plugin produces always fit.
- Shortcodes.ResolvedDateHasThreeParts and AdminSettings.PreviewAsksRemote require today's year to be at least 1. A negative year would format with a leading `-` and split into four parts.
- The wall clock and site timezone are left out. Today's date and `now` are parameters, and `DateTime::modify` is modelled as day arithmetic on day numbers.
- Overlapping preview requests, which could see each other's temporary options, are left out; each call is sequential.
- In the script, everything besides the form data and the shortcode string is left out: the DOM, jQuery, the AJAX calls, the loading guard, the debounce, the clipboard and the timers.
- The plugin bootstrap file is left out: singleton, activation defaults and the deactivation query, which repeats `clear_cache`.
