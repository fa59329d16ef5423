# avito-api client, modelled in Dafny

A model of the Python client for the Avito marketplace API (`avito_api`):
the `AvitoApi` session object, the pydantic models its replies are decoded
into, the statistics accessors on those models, and the `Error` exception.
HTTP is abstracted: a `Server` is a function from a request (endpoint, bearer
token and body) to the JSON reply, so every operation is stated as "what the
client sends" plus "what it makes of any reply".

Modules:

- `Wrappers` (wrappers.dfy): `Option` and `Result`.
- `Json` (json.dfy): JSON values as the client sees them after
  `response.json()`, Python truthiness, `dict.get`.
- `Exceptions` (exceptions.dfy): the Python exceptions the client can raise,
  and the `Error` class with its arity-dependent constructor and `__to_dict__`.
- `Text` (text.dfy): `str.join` and `str.split` on one separator character,
  and the round trip between them.
- `Dates` (dates.dfy): proleptic Gregorian dates, `date.toordinal()`,
  `strftime("%Y-%m-%d")` and the `full-date` reading of section 5.6 of
  RFC 3339, with round trips in both directions and the fact that date order
  is ordinal order.
- `Fields` (fields.dfy): pydantic field decoding: required fields, fields
  with defaults, fields whose declared default is not of the field's type
  (read as absent), nested models, lists of models. No field accepts `null`:
  none of the models declares an `Optional` type.
- `RestTypes` (rest_types.dfy): `AccessToken`, `UserInfoSelf`,
  `AutoloadItemInfo` (with `FeeInfo`, `Message`, `Section`), `Ok`, and the
  statistics models `ItemStatsShallow` with its `Stat` points and the
  `Day`/`Week`/`Month` variants and their accessors. Each model has an
  encoder into its object form and a lemma that decoding that form gives the
  model back.
- `Api` (api.dfy): request building (the client-credentials form of section
  4.4 of RFC 6749, the listing query, the statistics body, the webhook body),
  reply interpretation for every endpoint, and the `AvitoApi` class whose
  construction fetches the token and then the identity, and whose methods
  decode listings and statistics item by item in loops proved against the
  reply-interpretation functions.

Decisions worth knowing:

- The statistics accessors read `date.today()`; the model takes `today` as a
  parameter. `date.today() - timedelta(n)` raises OverflowError when the
  result would be before 0001-01-01; the week and month accessors return that
  error (only when there are points, as Python's `and` short-circuits).
- The three `get_*_uniq_*` methods per variant are one accessor per variant
  parameterised by the counter (`UniqViews`, `UniqContacts`, `UniqFavorites`).
- `RestTypes.WindowAccessorsAgree` assumes today is later than 0001-01-31:
  from 0001-01-08 to 0001-01-31 the week accessor answers while the month
  accessor raises OverflowError, so the two cannot agree there.
- Dates are compared through their ordinals; `Dates.OrdinalOrder` and
  `Dates.OrdinalInjective` show this is the same as comparing the dates.
- On a token error the description is `data.get("error_description", '')`:
  '' applies only to a missing key, so a description sent as `null` stays
  `null`.
- The statistics operation does not look for an `error` object in the reply
  (the identity and listing operations do): `Api.ItemsStatsOutcome` never
  raises `Error`.
- Not every model field has a default: `AccessToken`'s three fields,
  `Ok.ok`, `AutoloadItemInfo.ad_id`, `itemId` and a point's `date` are
  required, and a reply without them fails to decode.
- Model fields declared with a default of `''` on an `int` or `datetime`
  field keep that default unvalidated; the model represents those fields as
  `Option` (`None` = the default was used).

## Model

| member | source | states |
|---|---|---|
| Exceptions.Error.constructor | avito_api/exceptions.py:5-14 | With two or more arguments the fields are the first two (extra ones ignored); with one, the description is ''; with none, both are ''. |
| Exceptions.Error.ToDict | avito_api/exceptions.py:16-20 | The dict has exactly the keys `error` and `error_description`, holding the two fields. |
| Exceptions.ErrorDict | avito_api/exceptions.py:16-23 | The dict behind an error raised with `args`: `args[0]` and `args[1]`, each '' when missing, later arguments dropped. |
| Text.Join | avito_api/api.py:185 | `",".join(ids)` has the parts' total length plus one separator per neighbouring pair, and starts with the first part; no parts give "". |
| Text.SplitJoin | avito_api/api.py:185 | Splitting the join of a non-empty list of separator-free parts gives the list back. |
| Dates.ToOrdinal | avito_api/rest_types.py:84-103 | The day number `toordinal()` gives is at least 1 and lies within the date's own year. |
| Dates.OrdinalOrder | avito_api/rest_types.py:85-103 | One date is before another (by year, month, day) exactly when its ordinal is smaller, so the window tests can compare ordinals. |
| Dates.OrdinalInjective | avito_api/rest_types.py:74-80 | Two dates have the same ordinal exactly when they are the same date. |
| Dates.FormatDate | avito_api/api.py:227-228 | `strftime("%Y-%m-%d")` gives ten characters: four digits, '-', two digits, '-', two digits. |
| Dates.ParseDate | avito_api/rest_types.py:54 | A point's `date` is read only from text of the `YYYY-MM-DD` shape naming a real calendar date. |
| Dates.ParseFormatDate | avito_api/api.py:227-228 | A rendered date reads back as the same date. |
| Dates.FormatParseDate | avito_api/rest_types.py:54 | Text that reads as a date is exactly that date's rendering. |
| Fields.DecodeEach | avito_api/api.py:190-192 | Decoding a list succeeds exactly when every element decodes; then it has one value per element, in order; otherwise it fails with the first failing element's error. |
| Fields.DecodeEachFirstFailure | avito_api/api.py:190-192 | After a decodable prefix, the first element that fails decides the failure of the whole list. |
| Fields.Field | avito_api/rest_types.py:7-17 | A declared field: the value sent when it has the field's type, else a validation error; when absent, its default, or a validation error when the field has none. |
| Fields.OptionalField | avito_api/rest_types.py:22-23 | A field whose default is not of its type: absent when not sent, the value sent when of the type, else a validation error. |
| Fields.ModelField | avito_api/rest_types.py:41-44 | A nested model: its default when absent, else the decoding of the object sent; a non-object fails validation. |
| Fields.ListField | avito_api/rest_types.py:42 | A list of models: [] when absent, else each element decoded in order; a non-list fails validation. |
| RestTypes.DecodeAccessToken | avito_api/rest_types.py:6-9 | Decodes exactly when `access_token`, `expires_in` and `token_type` are all present with the right types; a missing one is a validation error. |
| RestTypes.AccessTokenRoundTrip | avito_api/rest_types.py:6-9 | A token in its object form decodes back to itself. |
| RestTypes.DecodeUserInfoSelf | avito_api/rest_types.py:12-17 | Never fails on a missing field: each absent field is '' or 0; fails only on a field of the wrong type. |
| RestTypes.UserInfoSelfRoundTrip | avito_api/rest_types.py:12-17 | An identity in its object form decodes back to itself. |
| RestTypes.DecodeFeeInfo | avito_api/rest_types.py:21-24 | Decodes exactly when each present field has its declared type; `amount` and `package_id` are the values sent, or absent; `type` is the value sent or ''. |
| RestTypes.DecodeMessage | avito_api/rest_types.py:26-31 | Decodes exactly when each present field has its declared type; `code` and `updated_at` are the values sent, or absent; `description`, `title`, `type` are the values sent or ''. |
| RestTypes.DecodeSection | avito_api/rest_types.py:33-35 | Both fields are optional and default to ''. |
| RestTypes.DecodeAutoloadItemInfo | avito_api/rest_types.py:37-45 | Decodes exactly when `ad_id` is a string and every other present field has its type (`fee_info`, `section` decodable objects, `messages` a list of decodable messages); each field is the value sent, or its default: absent for `avito_date_end`, `avito_id`, `processing_time`; '' for `avito_status`, `url`; the empty fee info and section; []. |
| RestTypes.ParseAutoloadItemInfo | avito_api/api.py:191 | `parse_obj` decodes an object field by field; anything else is a validation error. |
| RestTypes.NestedDefaultsAreEmptyObjects | avito_api/rest_types.py:41-44 | The defaults of `fee_info` and `section` are what decoding `{}` gives. |
| RestTypes.AutoloadItemInfoOnlyAdIdRequired | avito_api/rest_types.py:37-45 | An object holding only `ad_id` decodes, every other field at its default. |
| RestTypes.ListingWithStatus | avito_api/rest_types.py:37-45 | `{"ad_id": a, "avito_status": s}` decodes to a listing with that id and status, every other field at its default. |
| RestTypes.AutoloadItemInfoNeedsAdId | avito_api/rest_types.py:37 | Without `ad_id` a listing fails to decode. |
| RestTypes.FeeInfoRoundTrip | avito_api/rest_types.py:21-24 | A fee info in its object form decodes back to itself. |
| RestTypes.SectionRoundTrip | avito_api/rest_types.py:33-35 | A section in its object form decodes back to itself. |
| RestTypes.MessageRoundTrip | avito_api/rest_types.py:26-31 | A message in its object form decodes back to itself. |
| RestTypes.MessagesRoundTrip | avito_api/rest_types.py:42 | A list of messages in object form decodes back to the same list. |
| RestTypes.AutoloadItemInfoRoundTrip | avito_api/rest_types.py:20-45 | A listing with all its fields decodes back to itself. |
| RestTypes.DecodeOk | avito_api/rest_types.py:48-49 | Decodes exactly when a boolean `ok` is present; a missing `ok` is a validation error. |
| RestTypes.OkRoundTrip | avito_api/rest_types.py:48-49 | An Ok in its object form `{"ok": b}` decodes back to itself. |
| RestTypes.ItemStatsShallow.GetAllUniq | avito_api/rest_types.py:64-71 | The counter summed over every point (Total); 0 without points. |
| RestTypes.ItemStatsShallow.GetLastDayUniq | avito_api/rest_types.py:73-80 | The final point's counter when there are points and the final one is dated today; otherwise 0. |
| RestTypes.ItemStatsShallow.GetLastWeekUniq | avito_api/rest_types.py:84-91 | 0 without points; the final point's counter when its date is no earlier than today minus 7 days (later dates included), else 0; an overflow error when today minus 7 days is before 0001-01-01. |
| RestTypes.ItemStatsShallow.GetLastMonthUniq | avito_api/rest_types.py:95-103 | As the week accessor, with a 31-day bound. |
| RestTypes.TotalAppend | avito_api/rest_types.py:64-71 | The sum over two runs of points is the sum of their sums. |
| RestTypes.TotalSingle | avito_api/rest_types.py:64-71 | The sum over one point is its counter. |
| RestTypes.LastDayWithinTotal | avito_api/rest_types.py:64-80 | With no negative counters the last-day figure is between 0 and the all-time sum. |
| RestTypes.WindowNesting | avito_api/rest_types.py:73-103 | A final point dated today passes the week test, and one passing the week test passes the month test. |
| RestTypes.WindowAccessorsAgree | avito_api/rest_types.py:73-103 | Where the day test holds the week and month accessors give the day figure; where the week test holds the month accessor gives the week figure. |
| RestTypes.LastAccessorsReadOnlyFinalPoint | avito_api/rest_types.py:73-103 | Points before the final one never change the day, week or month figure. |
| RestTypes.EarlierFinalPointGivesZero | avito_api/rest_types.py:73-80 | A final point dated before today (yesterday, say) makes the last-day figure 0: only a point of today counts. |
| RestTypes.DecodeStat | avito_api/rest_types.py:53-57 | Needs a `date` holding a real `YYYY-MM-DD` date; `uniqViews`, `uniqContacts`, `uniqFavorites` default to 0. |
| RestTypes.DecodeItemStats | avito_api/rest_types.py:52-60 | Decodes exactly when `itemId` is an integer and `stats` is absent or a list of decodable points; `stats` holds those points in order, or []; the variant is the grouping's. |
| RestTypes.ParseItemStats | avito_api/api.py:231-239 | `parse_obj` of the grouping's variant decodes an object field by field; anything else is a validation error. |
| RestTypes.StatCountersDefault | avito_api/rest_types.py:53-57 | A point given only its date decodes with all three counters 0. |
| RestTypes.ItemStatsRequiredFields | avito_api/rest_types.py:52-60 | Without `itemId` an item fails to decode; without `date` a point fails to decode. |
| RestTypes.StatRoundTrip | avito_api/rest_types.py:53-57 | A point in its object form decodes back to itself. |
| RestTypes.ItemStatsRoundTrip | avito_api/rest_types.py:52-60 | A statistics item with all its points decodes back to itself under its own grouping. |
| Api.TokenForm | avito_api/api.py:43 | The grant form is the three parameters joined with '&', unescaped. |
| Api.TokenFormFields | avito_api/api.py:43 | Credentials without '&' come back out of the form as its three parameters. |
| Api.ListingQuery | avito_api/api.py:185 | `",".join(ids)`: no ids give the empty query; a single id is the query itself. |
| Api.ListingQueryRoundTrip | avito_api/api.py:185 | Splitting the query on ',' gives back a non-empty list of comma-free ids. |
| Api.StatsBody | avito_api/api.py:203-216 | Exactly the keys `dateFrom`, `dateTo`, `fields`, `itemIds`, `periodGrouping`; omitted `fields` become `["uniqViews","uniqContacts","uniqFavorites"]`, given ones pass unchanged. |
| Api.StatsBodyForDates | avito_api/api.py:221-229 | The two dates are sent as text that reads back as those dates. |
| Api.WebhookBody | avito_api/api.py:272 | The webhook body is exactly `{"url": url}`. |
| Api.LoopItems | avito_api/api.py:190 | `for item in value` followed by `parse_obj(item)`: a list yields its elements; an empty dict or string yields none; a non-empty dict or string fails validation on its first key or character; null, numbers and booleans are not iterable (TypeError). |
| Api.TokenOutcome | avito_api/api.py:55-59 | A reply that is not a dict cannot be read (AttributeError); a truthy `error` raises Error(error, error_description), the description '' only when the key is missing, and nothing is decoded; otherwise the reply is decoded as a token. |
| Api.NestedError | avito_api/api.py:83-84 | No error exactly when `error` is falsy; else Error(error.code, error.message), or an attribute error when `error` is not an object. |
| Api.UserInfoSelfOutcome | avito_api/api.py:82-86 | The nested error is raised before anything is decoded; otherwise the identity is decoded leniently. |
| Api.AutoloadItemsOutcome | avito_api/api.py:186-193 | The nested error is raised first; otherwise the items are decoded one by one. |
| Api.ParseGrouping | avito_api/api.py:231-237 | "day", "week", "month" select their variant; any other text selects none. |
| Api.ItemsStatsOutcome | avito_api/api.py:229-240 | An unknown grouping gives []; otherwise a reply or `result` that is not a dict cannot be read, and `result.items` (absent: []) is decoded element by element into the grouping's variant, succeeding exactly when every element decodes; the reply is never checked for an error object, so Error is never raised. |
| Api.WebhookOutcome | avito_api/api.py:283 | Succeeds exactly when the reply is an object with a boolean `ok`; otherwise a validation error, never Error. |
| Api.Session | avito_api/api.py:21-29 | A token failure is raised as is; after a good token, construction gives that token with the identity fetched using it, or raises the identity step's failure as is. |
| Api.AvitoApi.constructor | avito_api/api.py:18-19 | The credentials are stored first. |
| Api.AvitoApi.Initialise | avito_api/api.py:21-29 | Token fields are set first, then the identity fields, each equal to the decoded identity; a failure leaves the later fields untouched. |
| Api.AvitoApi.Connect | avito_api/api.py:12-29 | Returns a fresh session exactly when construction succeeds, with `email`, `id`, `name`, `phone`, `profile_url` from the identity; otherwise the exception raised. |
| Api.AvitoApi.GetAccessToken | avito_api/api.py:49-59 | The token reply for the stored credentials' form, interpreted as TokenOutcome. |
| Api.AvitoApi.GetUserInfoSelf | avito_api/api.py:76-86 | The identity reply to a request carrying the session's bearer token. |
| Api.AvitoApi.GetAutoloadItemsInfoV2 | avito_api/api.py:179-193 | Equal to AutoloadItemsOutcome on the reply to the comma-joined query; the loop keeps one decoded listing per item visited, in order. |
| Api.AvitoApi.ItemsStatsShallow | avito_api/api.py:221-240 | Equal to ItemsStatsOutcome on the reply to the body with formatted dates; the loop keeps one decoded item per element, in order. |
| Api.AvitoApi.ItemsStatsShallowDay | avito_api/api.py:242-246 | The statistics call with grouping "day"; every item is a Day item. |
| Api.AvitoApi.ItemsStatsShallowWeek | avito_api/api.py:248-252 | The statistics call with grouping "week"; every item is a Week item. |
| Api.AvitoApi.ItemsStatsShallowMonth | avito_api/api.py:254-258 | The statistics call with grouping "month"; every item is a Month item. |
| Api.AvitoApi.PostWebhookV2 | avito_api/api.py:260-284 | The reply to `{url}` on the subscribe endpoint, decoded straight into Ok. |
| Api.AvitoApi.PostWebhookUnsubscribe | avito_api/api.py:286-310 | The reply to `{url}` on the unsubscribe endpoint, decoded straight into Ok. |
| Api.StatsFollowItems | avito_api/api.py:230-240 | With `result.items` a list, the call succeeds exactly when every element decodes as the grouping's variant, and then gives one item per element, in order. |
| Api.StatsVariantMatchesGrouping | avito_api/api.py:230-240 | Every statistics item is of the variant the grouping names. |
| Api.StatsMissingResultIsEmpty | avito_api/api.py:232 | A reply without `result`, or whose `result` lacks `items`, gives no items. |
| Api.ListingsFollowItems | avito_api/api.py:189-193 | One listing per element of `items`, in order; none when `items` is absent. |
| Api.ListingsRoundTrip | avito_api/api.py:189-193 | Listings sent in their object form come back exactly, in order. |
| Api.TokenErrorWins | avito_api/api.py:55-59 | A truthy error outranks valid token fields; the error and description are copied verbatim, '' when no description. |
| Api.TokenReplyDecodes | avito_api/api.py:55-59 | An error-free token reply decodes to its token; one lacking a token field fails to decode. |
| Api.IdentityErrorWins | avito_api/api.py:82-86 | A nested error outranks valid identity fields and carries its code and message. |
| Api.WebhookIgnoresErrors | avito_api/api.py:276-310 | An error object next to `ok` is ignored; without `ok` the reply fails to decode rather than raising Error. |
| Api.TokenFailureSkipsIdentity | avito_api/api.py:21-24 | When the token exchange fails, the identity reply has no influence. |
| Api.IdentityUsesNewToken | avito_api/api.py:21-29 | Construction depends only on the token reply and the identity reply for that token. |

## Left out

- Network I/O, HTTP headers, URLs, status codes and the JSON text itself: a reply is a `Json` value given by the `Server` function; a reply body that is not JSON is not modelled.
- The clock: `date.today()` is the `today` parameter of the accessors.
- Floating-point JSON numbers: `Json` has integers only.
- pydantic coercions: strings of digits accepted as integers, integers as strings, booleans read from `1`/`0` or `"true"`/`"false"` (so `{"ok": 1}` is `Ok(ok=True)` for pydantic but a validation error in DecodeOk and WebhookOutcome) and `true`/`false` read as `1`/`0` in integer fields (a validation error in DecodeAccessToken and the other decoders), `parse_obj`'s attempt to convert a non-dict to a dict, and date formats other than `YYYY-MM-DD` for a point's `date` are not modelled; such values are validation errors in the model.
- `datetime` fields (`avito_date_end`, `processing_time`, `updated_at`) are kept as their text, unparsed: the model accepts any string there, where pydantic rejects text that is not a date-time, and it rejects a numeric timestamp, which pydantic accepts.
- Dates.FormatDate: zero-pads years below 1000 to four digits; Python's `strftime("%Y")` does not pad on every platform.
- `Error.__str__`/`__repr__` (JSON serialisation of the dict) and `AvitoApi.__str__`/`__repr__`.
- The exception object's identity and `Exception.args`: a raised `Error` is the value `AvitoError(args)`.
- Api.AvitoApi.ItemsStatsShallow: the `period_grouping="day"` default argument is not modelled (every call names its grouping); the three per-grouping loops of the source are one loop using the grouping's decoder; the items they build are the same.
