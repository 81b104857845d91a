# Facebook Ads connector for Looker Studio: a Dafny model of its core

The connector answers a Looker Studio data request with the report of a
Facebook ad account. The request names schema fields such as `metric__clicks`,
`breakdown__age`, `actions__link_click` or `date__date`. `FacebookClient` turns
those names into the `fields`, `breakdowns`, `level` and `time_increment`
parameters of a Graph API insights query. It follows the `paging.next` cursors
of the answer page by page and turns every insights record into one row, with
one value per requested field. The values of action fields are sums over the
nested action tuples and the chosen attribution windows. `Schema` is the field
catalog: ten descriptor constructors and the table built from them.
`Utils.querystring` and `Utils.toTitleCase` are the string helpers both use.

The Dafny modules follow the three source files:

- `Facebook` (facebook_client.dfy) models the class `FacebookClient`. Its
  fields `request`, `fetchLog` (the fetches made so far) and `sleeps` are
  updated in place. Its loops (`get`, `getFieldsFromRequest`,
  `getBreakdownsFromRequest`, `getSchemaFromRequest`, `getRowsFromData`,
  `getActionValue`) are methods with loop invariants. Each method is proved
  against a specification function.
- `FacebookCodec` (facebook_codec.dfy) holds the pure name mappers
  `getFbFieldName` and `getFbBreakdownName`, the `fields` and `breakdowns`
  strings, `getLevel` and `getTimeIncrementFromFields`.
- `FacebookValues` (facebook_values.dfy) holds `mapSchemaValue`, the action
  sum behind `getActionValue`, and the catalog lookup of
  `getSchemaFromRequest`.
- `SchemaCatalog` (schema.dfy) holds the descriptor constructors,
  `fromKeyToLabel` and the `getSchema` table, section by section.
- `Utils` (utils.dfy) holds `querystring` and `toTitleCase`.
- `JsStrings`, `DataStudio` and `Wrappers` hold the JavaScript string
  operations the code relies on (`split`, `join`, `indexOf`, `replace`), the
  request record, and `Option`/`Result`.

The page source is a map from URL to page. A page is parsed data plus an
optional `paging`, or a failed fetch. `get` is given the URLs it will visit as
a ghost argument. That argument must follow the cursors and stop at the first
page without `next`, or at the first failure. `Walk` is the reference
definition of that visit, and `WalkSound` and `WalkComplete` show that the two
agree.

Two consequences of how the query parameters are computed:

- `time_increment` tests the substring "date" in the `fields` string
  (src/facebook.ts:346), and `getFbFieldName` never puts a `date__…` name
  there (src/facebook.ts:283-285). So a request for `date__date` alone gets
  `"all_days"` (`DateFieldAloneGivesAllDays`).
- `level` is computed from the `fields` string only (src/facebook.ts:345),
  never from the breakdowns. Adding breakdowns changes neither the level nor
  the time increment (`BreakdownsNeverChangeLevel`).

## Model

| member | source | states |
|---|---|---|
| Facebook.FacebookClient.constructor | src/facebook.ts:30-33 | keeps the access token; the base URL is `https://graph.facebook.com/` followed by the version, "v15.0" when none is given; no request is set and nothing has been fetched |
| Facebook.FacebookClient.SetRequest | src/facebook.ts:40-42 | the given request replaces any earlier one |
| Facebook.FacebookClient.GetRequest | src/facebook.ts:49-52 | succeeds exactly when a request is set and then returns it; otherwise fails with "No request set" |
| Facebook.FacebookClient.Get | src/facebook.ts:69-99 | fetches `baseUrl + path`, then each page's `next`, each with the bearer header, in order; sleeps once per answered fetch; returns every page's data concatenated in fetch order, or, after a failed fetch, only the DS_USER error naming that URL |
| Facebook.Walk | src/facebook.ts:69-99 | the reference visit of `get`; a finished walk starts at its URL |
| Facebook.WalkSound | src/facebook.ts:69-99 | a finished walk follows the cursors, stops at the first page without `next` or at the first failure, and gathers the pages' data in order |
| Facebook.WalkComplete | src/facebook.ts:69-99 | every URL list that follows the cursors and stops is the walk from its first URL, so `Get`'s ghost pages are determined by the source |
| Facebook.WalkUnique | src/facebook.ts:69-99 | a finished walk does not depend on the fuel it was given |
| Facebook.PagesDataFromSource | src/facebook.ts:89 | every record `get` returns comes from a page of the source |
| Facebook.FacebookClient.GetFieldsFromRequest | src/facebook.ts:238-249 | the comma-joined `Dedup` of the truthy `getFbFieldName` results, in request order |
| Facebook.FacebookClient.GetBreakdownsFromRequest | src/facebook.ts:211-220 | the comma-joined `Dedup` of the truthy `getFbBreakdownName` results, in request order |
| FacebookCodec.TokensElements | src/facebook.ts:240-246 | a collected name is exactly a truthy mapping of some request field |
| FacebookCodec.FbFieldName | src/facebook.ts:278-306 | `false` exactly for `date__…` and `breakdown__…` names; `undefined` only for a name without `__`; a name it sends never holds `__` |
| FacebookCodec.FbBreakdownName | src/facebook.ts:257-270 | a value other than `false` exactly for `breakdown__…` names; `undefined` only for a name without `__`; a breakdown it sends never holds `__` |
| JsStrings.SplitPairPieces | src/facebook.ts:259 | neither of the two first pieces of `split("__")` holds `__`, and the second is `undefined` exactly when the name holds no `__` |
| FacebookCodec.DedupElements | src/facebook.ts:244 | the `indexOf` check drops repeats and nothing else |
| FacebookCodec.DedupDistinct | src/facebook.ts:244 | no name is collected twice |
| FacebookCodec.DedupFirstOccurrenceOrder | src/facebook.ts:240-246 | the names come in the order of their first occurrence |
| FacebookCodec.JoinedTokensSplit | src/facebook.ts:248 | when no mapped name holds a comma, the joined string splits back into exactly the distinct names |
| FacebookCodec.FbFieldNameOfField | src/facebook.ts:257-306 | for a catalog name `g__key`: `false` for date and breakdown, "actions"/"action_values" for those groups, the key otherwise; the breakdown name is the key for breakdowns only |
| FacebookCodec.DateNeverAField | src/facebook.ts:283-285 | no `date__…` name is ever sent as a field |
| FacebookCodec.UndelimitedName | src/facebook.ts:280 | a name without `__` (other than the two action groups) is neither a field nor a breakdown |
| FacebookCodec.SchemaFieldName | src/facebook.ts:257-306 | every name of the catalog maps to the field and breakdown its kind calls for |
| FacebookCodec.DatesAndBreakdownsSendNoFields | src/facebook.ts:283-289 | a request of dates and breakdowns only sends an empty fields string |
| FacebookCodec.GetLevel | src/facebook.ts:314-322 | one of "ad", "adset", "campaign", "account"; a level other than "account" has its `_name` or `_id` in the fields string; no finer level's names are there |
| FacebookCodec.LevelOfList | src/facebook.ts:314-322 | over a comma-joined list the level is decided element by element, with precedence ad, adset, campaign, account |
| FacebookCodec.LevelIgnoresOrder | src/facebook.ts:314-322 | lists with the same elements, in any order or with repeats, get the same level |
| FacebookCodec.AdBeatsCampaign | src/facebook.ts:319 | `ad_name` next to `campaign_name` gives level "ad" |
| FacebookCodec.TimeIncrementFromFields | src/facebook.ts:228-230 | daily exactly when "date" occurs somewhere in the fields string |
| FacebookCodec.TimeIncrementOfList | src/facebook.ts:228-230 | over a comma-joined list the rows are daily exactly when some element contains "date" |
| FacebookCodec.DateFieldAloneGivesAllDays | src/facebook.ts:228-230 | a request of date and breakdown fields only gets `"all_days"` |
| Facebook.ParamsFor | src/facebook.ts:334-347 | limit 100 and the request's attribution setting; level and time increment are computed from the fields string sent |
| Facebook.ParamsFromFieldList | src/facebook.ts:334-347 | the level and time increment sent depend only on the distinct field names sent |
| Facebook.BreakdownsNeverChangeLevel | src/facebook.ts:337-346 | adding breakdown fields to a request changes neither the fields sent, nor the level, nor the time increment |
| Facebook.FacebookClient.InsightsQuery | src/facebook.ts:333-348 | the path is `/account/insights?` with the query string of the parameter record: limit 100, the fields and breakdowns strings, the stringified date range, the attribution setting, the level and time increment of the fields string |
| Utils.Querystring | src/utils.ts:8-17 | `enc(k)=enc(v)` for every entry in key order, joined with '&'; "" for no entries |
| Utils.QuerystringSegments | src/utils.ts:8-17 | with an encoder that never writes '&', the query string splits back into one segment per key |
| FacebookValues.MapSchemaValue | src/facebook.ts:154-175 | a date value is a string without '-', an action value is a number |
| FacebookValues.MapCatalogField | src/facebook.ts:154-175 | a catalog name resolves by its group: `date_start` without hyphens, the action sum for its action type, or the record's own property under its key |
| FacebookValues.SchemaFieldValue | src/facebook.ts:154-175 | every name of the catalog resolves by its kind, on any record holding what that kind reads |
| FacebookValues.DateExample | src/facebook.ts:161 | "2023-05-07" in `date_start` becomes "20230507" |
| Facebook.FacebookClient.GetActionValue | src/facebook.ts:184-203 | the sum over the tuples of the asked type and over the attribution windows of the set request, "default" reading `value`; unparsed or absent amounts count 0 |
| Facebook.FacebookClient.Windows | src/facebook.ts:188-189 | present exactly when a request is set; the comma-free tokens of the attribution setting, which join back into it |
| FacebookValues.ActionValue | src/facebook.ts:190-199 | with no window tokens the value is 0 |
| FacebookValues.WindowSettingsAdd | src/facebook.ts:192-198 | the sum for windows "a,b" is the sum for "a" plus the sum for "b" |
| FacebookValues.ActionValueTuplesAppend | src/facebook.ts:190-199 | the value over two tuple lists is the sum of their values |
| FacebookValues.ActionValueNoMatch | src/facebook.ts:190-191 | tuples of another action type, and an empty tuple list, add nothing |
| FacebookValues.ActionValueExample | src/facebook.ts:184-203 | `{value: 10, 7d_click: 6, 1d_view: 2}` gives 8 with "7d_click,1d_view", 10 with "default", 0 for another type |
| Facebook.FacebookClient.GetSchemaFromRequest | src/facebook.ts:107-126 | the output schema of the request: one entry per field, in request order, typed by the catalog |
| Facebook.TypeFields | src/facebook.ts:112-123 | the nested loops with `break` type each field by the first catalog entry of its name |
| Facebook.TypedFields | src/facebook.ts:112-123 | one entry per field, carrying the field's name, in order |
| FacebookValues.LookupFindsFirst | src/facebook.ts:117-122 | the type of the first entry with the name; "" exactly when no entry has it |
| FacebookValues.CatalogFieldTypes | src/facebook.ts:117-122 | every catalog field is typed by its own entry, STRING for dimension kinds and NUMBER for metric kinds |
| Facebook.FacebookClient.GetRowsFromData | src/facebook.ts:135-145 | one row per record and one value per schema entry; value j of row i is `mapSchemaValue(data[i], schema[j].name)` |
| Facebook.RecordsOfPagesResolve | src/facebook.ts:351-352 | when every page record resolves every requested field, so do the records `get` returns |
| Facebook.FacebookClient.GetData | src/facebook.ts:329-356 | fails with "No request set" and fetches nothing without a request; otherwise makes exactly the fetches of the walk, fails exactly when a fetch fails, and returns the request's schema and one resolved row per gathered record |
| Facebook.FacebookClient.ReportFor | src/facebook.ts:331-355 | `getData` once the request is known: the schema, then the query, the pages and the rows |
| Facebook.FacebookClient.FetchReport | src/facebook.ts:348-355 | the query, the pages and the rows under a given schema |
| SchemaCatalog.OrDefault | src/schema.ts:199-200 | `x = x \|\| d`: a missing or empty argument takes the default, any other value is kept |
| SchemaCatalog.Date | src/schema.ts:198-213 | name `date__key`, group "Date", STRING dimension, semantic group DATETIME, the given semantic type; default exactly when `isDefault` is true; label defaulted |
| SchemaCatalog.ActionValues | src/schema.ts:215-228 | name `action_values__key`, group "Action Values", NUMBER metric in the request's currency, semantic group CURRENCY; label defaulted |
| SchemaCatalog.Actions | src/schema.ts:230-242 | name `actions__key`, group "Actions", NUMBER metric, semantic type NUMBER; label defaulted |
| SchemaCatalog.Breakdown | src/schema.ts:244-256 | name `breakdown__key`, group "Breakdown", STRING dimension, semantic type TEXT; label defaulted |
| SchemaCatalog.Dimension | src/schema.ts:258-277 | name `dimension__key`, STRING dimension; label, group ("Dimensions") and semantic type ("TEXT") defaulted |
| SchemaCatalog.Cost | src/schema.ts:279-293 | name `cost__key`, NUMBER metric in the request's currency; label and group ("Costs") defaulted |
| SchemaCatalog.Metric | src/schema.ts:295-308 | name `metric__key`, NUMBER metric, semantic type NUMBER; label and group ("Metrics") defaulted |
| SchemaCatalog.AggregatedMetric | src/schema.ts:310-329 | name `aggregated_metric__key`, NUMBER metric whose formula is the given one; label and group ("Metrics") defaulted |
| SchemaCatalog.AggregatedCost | src/schema.ts:331-346 | name `aggregated_cost__key`, NUMBER metric whose formula is the given one, in the request's currency; label and group ("Costs") defaulted |
| SchemaCatalog.Percent | src/schema.ts:348-363 | name `percent__key`, NUMBER metric whose formula is the given one, semantic type PERCENT in group NUMERIC; label and group ("Metrics") defaulted |
| SchemaCatalog.NameOf | src/schema.ts:202 | a constructed name is the kind's prefix, `__`, then the key unchanged |
| SchemaCatalog.NameOfSplits | src/schema.ts:202 | splitting a constructed name at `__` gives its prefix back, and the key as well when the key holds no `__` |
| SchemaCatalog.Prefix | src/schema.ts:202 | each kind's prefix has no `__` and does not end in '_', so the first `__` of a name follows it |
| SchemaCatalog.GroupNamed | src/schema.ts:202 | a known prefix names the kind whose prefix it is |
| SchemaCatalog.FromKeyToLabel | src/schema.ts:365-367 | same length as the key, no underscore; each '_' becomes a space and a letter `[a-z]` is upper-cased exactly at the start or after an underscore or whitespace |
| SchemaCatalog.AdIdLabel | src/schema.ts:365-367 | "ad_id" becomes "Ad Id" |
| SchemaCatalog.GetSchema | src/schema.ts:9-196 | the table has 88 descriptors |
| SchemaCatalog.SchemaIsSection | src/schema.ts:9-196 | in the table every name is distinct; every name is the one a kind's constructor gives a key without `__`, so it splits back into that kind's prefix and that key; the kinds come in source order; each entry is typed as its kind says, the currency kinds take the request's currency, and exactly `date__date` is the default |
| Utils.TitleCaseAt | src/utils.ts:25-27 | `toTitleCase` upper-cases a letter `[a-z]` exactly at position 0 or after whitespace and keeps every other character |
| Utils.TitleCaseIdempotent | src/utils.ts:25-27 | applying `toTitleCase` twice is the same as applying it once |
| Utils.ToTitleCase | src/utils.ts:25-27 | keeps the length of the string |

## Left out

- `UrlFetchApp.fetch` is a map from URL to page, and `Utilities.sleep(250)` is a counter of sleeps; `fetchLog` records each call's URL and `Authorization` header.
- Facebook.FacebookClient.Get: takes the pages it visits as a ghost argument, so it does not model a `get` whose cursors never end; `Walk` with its fuel covers the finite case only.
- `JSON.parse` of a page is not modelled: a page is given parsed. A parse failure, which the DS_USER handler does not catch, is not modelled.
- `JSON.stringify` of the time range, `encodeURIComponent` and `parseFloat` are parameters of the model (`stringify`, `enc`, `parse`).
- Floating point is not modelled: amounts are `real`, and neither rounding nor `String(sum)` is modelled; a rendered number is `Decimal(x)`.
- A crash on a missing `date_start`, `actions` or `action_values` list, a missing `paging`, or missing attribution windows when a matching tuple is met, is a precondition (`MapDefined`, `FollowsCursors`, `StopsAt`, `RecordsResolve`), not a behaviour.
- The errors thrown by `getRequest` and `get` are the `Failure` case of a `Result`; what happens to them after `getData` is out of scope.
- `getAdAccounts` (src/facebook.ts:59-61) is not modelled: it is another call of `get` with a fixed path, used only during configuration.
- `filtersApplied: false` in the result of `getData` is not modelled: it is a constant.
- Facebook.FacebookClient.GetData: builds the schema before the query, while the source builds the fields string first; every step but the fetch is pure, so the order changes nothing observable.
- src/auth.ts, src/config.ts and src/main.ts are not part of this model: they are the OAuth flow, the configuration form and the host entry points.
- The Google Apps Script request is a plain record: field names in order, the account, currency and attribution setting, and the date range.
- Looker Studio's `Schema` object is read only for the currency of its request, so the table is a function of the request.
