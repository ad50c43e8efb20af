# uitzicht client core, modelled in Dafny

uitzicht is a browser dashboard for expenses recorded through a Telegram bot. Every
page it shows is derived from a few pieces of client logic, and this project models them:

- the **session store**: one storage slot holding a bearer token, and the advisory
  expiry check on the token's decoded payload (`app/lib/auth.ts`);
- the **response schemas** that every backend payload is parsed through
  (`app/lib/schemas.ts`);
- the **authenticated request client**. It covers header assembly and how a response
  becomes a value or one of the failures: the 401 path clears the token, any other
  failure status becomes an `ApiError`, and a `null` error body makes reading `.detail`
  throw. It also covers the Telegram login, the health check, and the paths and query
  strings of the expense endpoints (`app/lib/api.ts`);
- **pagination** of the expense list (`app/routes/dashboard/expenses.tsx`);
- the **linked-accounts page**: the provider list held as page state, loading and
  unlinking, the providers offered as not connected, the unlink guard, and the row
  labels (`app/routes/dashboard/settings.tsx`);
- the **utilities**: the categories, their colours, and the avatar initials
  (`app/lib/utils.ts`).

Each module follows its source file. Files with state are imperative Dafny:
`Auth.SessionStore` and
`Settings.SettingsPage` are classes whose methods update their fields. Pure code becomes
functions with lemmas.

Some JavaScript semantics are modelled explicitly because the code depends on them:

- truthiness, for `||` and `if (x)`;
- `split`, including the empty pieces;
- the UTF-16 `length` behind zod's `.length(3)`;
- `encodeURIComponent`, and the `URLSearchParams` serializer with its UTF-8 percent
  escapes;
- `Number.prototype.toString` of an integer;
- `Math.floor` and `Math.ceil` of a quotient, written out for negative divisors.

Calls into code that is not visible become parameters of the model:

| call | parameter |
|---|---|
| `JSON.parse(atob(...))` | `SegmentDecoder` |
| `z.coerce.date()` | `DateCoercion` |
| `fetch` | `Transport` |
| `JSON.stringify` | `stringify` |
| `toISOString()` | its text |
| `Date.now()` | `nowMs` |
| string-to-`Number` | `number` |
| `getLinkedProviders()`, `unlinkProvider()` | how the awaited call ended |

`totalPages` is not clamped (`app/routes/dashboard/expenses.tsx:19` computes
`Math.ceil(total_count / limit)`): an empty list has zero pages and its Next button
stays enabled (`ExpenseList.NoResultsKeepNextEnabled`).

Modules:

| file | module | models |
|---|---|---|
| `wrappers.dfy` | `Wrappers` | `Option` with `:-` propagation |
| `jsstring.dfy` | `JsString` | `split`/`join`, UTF-16 length, ASCII `toUpperCase`, integer `toString` |
| `json.dfy` | `JsonValues` | parsed JSON values, truthiness, property reads |
| `url_encoding.dfy` | `UrlEncoding` | `encodeURIComponent`, `URLSearchParams` serialization |
| `auth.dfy` | `Auth` | the session store |
| `schemas.dfy` | `Schemas` | the zod schemas as parse functions |
| `schema_properties.dfy` | `SchemaProperties` | round trips and rejection properties of those parsers |
| `api.dfy` | `Api` | the request client and the endpoint paths |
| `expense_list.dfy` | `ExpenseList` | pagination |
| `settings.dfy` | `Settings` | the linked-accounts page |
| `utils.dfy` | `Utils` | categories, colours, initials |

## Model

| member | source | states |
|---|---|---|
| JsString.Split | app/lib/auth.ts:30 | `split` yields at least one piece, empty pieces included |
| JsString.SplitPiecesHaveNoSeparator | app/lib/auth.ts:30 | no piece of a split contains the separator |
| JsString.JoinSplit | app/lib/auth.ts:30 | a split loses nothing: joining the pieces with the separator gives back the string |
| JsString.SplitAfterPiece | app/lib/auth.ts:30 | a separator-free head followed by the separator is split off as the first piece, and the rest splits independently |
| JsString.SplitWithoutSeparator | app/lib/auth.ts:30 | a string without the separator splits into itself alone |
| JsString.Utf16Length | app/lib/schemas.ts:13 | the UTF-16 length of a string lies between its code-point count and twice that |
| JsString.BasicPlaneLength | app/lib/schemas.ts:13 | for basic-plane text the UTF-16 length is the character count |
| JsString.UpperChar | app/lib/utils.ts:91 | ASCII lower-case letters move to upper case; every other character is kept |
| JsString.Upper | app/lib/utils.ts:91 | `toUpperCase` keeps the length and maps each character (ASCII letters only) |
| JsString.NatToString | app/lib/api.ts:89-90 | the decimal of a natural is non-empty, all digits, with no leading zero |
| JsString.IntToString | app/lib/api.ts:89-90 | the decimal of an integer is digits with a leading `-` exactly for negatives |
| JsString.NatToStringRoundTrip | app/lib/api.ts:89-90 | reading the digits back gives the number |
| JsString.IntToStringInjective | app/lib/api.ts:89-90 | distinct integers have distinct decimals |
| JsString.DecimalOfDefaults | app/lib/api.ts:85-86 | the defaults 50 and 0 print as "50" and "0" |
| JsonValues.Property | app/lib/auth.ts:40 | a field read yields the field of an object and `undefined` for a missing key or a non-object |
| JsonValues.OrElse | app/lib/api.ts:56 | `a \|\| b` yields `a` when truthy, otherwise `b` |
| UrlEncoding.Utf8Bytes | app/lib/api.ts:109 | the UTF-8 encoding of a code point has 1 to 4 bytes, each below 256, and one byte (the code point itself) exactly for ASCII |
| UrlEncoding.HexDigit | app/lib/api.ts:109 | a hex digit of an escape is an ASCII letter or digit, so never a delimiter |
| UrlEncoding.PercentBytes | app/lib/api.ts:109 | each byte becomes three characters, `%` and hex digits |
| UrlEncoding.EncodeUriComponent | app/lib/api.ts:109 | the output contains only `%` and unreserved characters, and unreserved input is left as it is |
| UrlEncoding.FormEncode | app/lib/api.ts:88-91 | the form serializer writes only `%`, `+`, alphanumerics and `*-._`, and leaves text made of those unreserved characters unchanged |
| UrlEncoding.EncodedSegmentStaysInPlace | app/lib/api.ts:109 | an encoded category holds no `/`, `?`, `#` or `&` |
| UrlEncoding.FormEncodedHasNoDelimiters | app/lib/api.ts:88-91 | an encoded name or value holds no `&` or `=` |
| UrlEncoding.FormEncodeInteger | app/lib/api.ts:89-90 | an integer's decimal is serialized unchanged |
| UrlEncoding.Pair | app/lib/api.ts:88-91 | one `name=value` pair, both form-encoded; stated by IntegerPair and FormEncodedHasNoDelimiters |
| UrlEncoding.QueryString | app/lib/api.ts:88-91 | the pairs joined by `&`, in order; stated by QueryStringSplits and QueryStringOfTwo |
| UrlEncoding.QueryStringSplits | app/lib/api.ts:88-91 | splitting the query on `&` gives back each parameter, in order |
| UrlEncoding.FourPairsSplit | app/lib/api.ts:121-126 | a four-parameter query splits into its four `name=value` pieces, in order |
| UrlEncoding.FormEncodePlain | app/lib/api.ts:88-91 | a name made of unreserved characters is serialized as it is |
| UrlEncoding.IntegerPair | app/lib/api.ts:88-91 | a plain name with an integer value reads `name=digits` |
| UrlEncoding.QueryStringOfTwo | app/lib/api.ts:88-91 | two parameters are joined by a single `&` |
| Auth.PayloadSegment | app/lib/auth.ts:30-31 | `atob` receives the piece at index 1 of the `.`-split token, or "undefined" when there is no such piece |
| Auth.SessionStore.constructor | app/lib/auth.ts:7-9 | the store starts with whatever storage held |
| Auth.SessionStore.SaveToken | app/lib/auth.ts:3-5 | saving overwrites the slot with the token, unvalidated |
| Auth.SessionStore.GetToken | app/lib/auth.ts:7-9 | reading returns the slot's content and changes nothing |
| Auth.SessionStore.RemoveToken | app/lib/auth.ts:11-13 | removing leaves the slot empty |
| Auth.SessionStore.TokenPayload | app/lib/auth.ts:21-36 | no payload without a token or with an empty one; otherwise the decoded middle segment, or none when decoding throws |
| Auth.NoExpiryClaimMeansExpired | app/lib/auth.ts:38-40 | a missing or falsy payload, or a missing or falsy `exp`, counts as expired |
| Auth.ZeroExpiryIsExpired | app/lib/auth.ts:40 | `exp = 0` counts as expired |
| Auth.NumericExpiry | app/lib/auth.ts:38-44 | with a non-zero numeric `exp`, expired iff now is at or past `exp - 300` seconds |
| Auth.ExpiresInOneMinute | app/lib/auth.ts:42-43 | a token expiring within five minutes is already treated as expired |
| Auth.ValidBeyondMargin | app/lib/auth.ts:42-43 | a token expiring more than 300 s ahead is not expired |
| Auth.ExpiryIsMonotone | app/lib/auth.ts:38-44 | once expired, a token stays expired as time passes |
| Auth.NumericValue | app/lib/auth.ts:43 | `payload.exp - 300` converts a number to itself, an empty array to 0, and an array of two or more values or an object to NaN |
| Auth.JoinedNumber | app/lib/auth.ts:43 | an array converts through its comma-joined text: no element gives 0, two or more give NaN, one number gives that number |
| Auth.PayloadExpired | app/lib/auth.ts:38-44 | a missing or falsy payload is expired |
| Auth.SessionStore.IsTokenExpired | app/lib/auth.ts:38-44 | with no token, an empty one, or a payload that does not decode, the token counts as expired |
| Auth.SessionStore.IsAuthenticated | app/lib/auth.ts:15-18 | an authenticated store holds a non-empty token whose payload decoded |
| Auth.EmptyArrayExpiry | app/lib/auth.ts:40-43 | an `exp` of `[]` is truthy and converts to 0, so the token is expired iff now is at or past -300000 ms |
| Auth.SingletonArrayExpiry | app/lib/auth.ts:40-43 | an `exp` of `[e]` behaves as the number e, zero included: expired iff now is at or past `e - 300` seconds |
| Auth.NaNExpiryNeverExpires | app/lib/auth.ts:40-43 | an `exp` that converts to NaN, such as a two-element array, never expires the token |
| Auth.AuthenticatedIffFreshPayload | app/lib/auth.ts:15-18 | authenticated iff a non-empty token is stored and the payload decoded from its middle segment is not expired; an empty token never authenticates |
| Auth.AuthenticatedHasPayload | app/lib/auth.ts:15-36 | an authenticated store holds a non-empty token whose payload decoded |
| Auth.PayloadFromMiddleSegment | app/lib/auth.ts:30-31 | of `head.payload.signature` only the middle segment is decoded |
| Auth.PayloadOfUndottedToken | app/lib/auth.ts:30 | a token without a `.` hands "undefined" to `atob` |
| Auth.SameMiddleSegmentSamePayload | app/lib/auth.ts:30-32 | tokens that agree on the middle segment have the same payload |
| Auth.SaveReadRemove | app/lib/auth.ts:3-18 | reading after saving returns the saved token; after removing nothing is read and the session is not authenticated |
| Auth.RemoveIsIdempotent | app/lib/auth.ts:11-13 | removing twice leaves the same state as removing once |
| Schemas.NumberAt | app/lib/schemas.ts:8 | a number field is accepted iff present and numeric, and is returned as it is |
| Schemas.AmountAt | app/lib/schemas.ts:9 | an amount is accepted iff it is a number of at least 0 |
| Schemas.StringAt | app/lib/schemas.ts:10 | a string field is accepted iff present and a string |
| Schemas.BoolAt | app/lib/schemas.ts:73 | a boolean field is accepted iff present and a boolean |
| Schemas.CurrencyAt | app/lib/schemas.ts:13 | a currency is accepted iff it is a string of length 3 |
| Schemas.DateAt | app/lib/schemas.ts:12 | a date is the coercion of a present field |
| Schemas.Optional | app/lib/schemas.ts:49-51 | an absent optional field is accepted as absent; a present one must pass its check |
| Schemas.WithDefault | app/lib/schemas.ts:59-60 | an absent field takes its default; a present one must pass its check |
| Schemas.ParseExpense | app/lib/schemas.ts:7-15 | an accepted expense has every declared field, a non-negative amount and a 3-character currency, each taken from the input |
| Schemas.ParseExpenseList | app/lib/schemas.ts:18 | an array is accepted iff every element is, and element i parses to result i |
| Schemas.ParseExpensesResponse | app/lib/schemas.ts:17-22 | a page is accepted only with an `expenses` array of valid expenses and numeric counts, taken from the input |
| Schemas.ParseCategoryTotal | app/lib/schemas.ts:24-28 | a breakdown entry has its category, total and count from the input |
| Schemas.ParseBreakdown | app/lib/schemas.ts:37 | a breakdown is accepted iff every entry is |
| Schemas.StatsCounters | app/lib/schemas.ts:31-36 | the six counters are accepted only when all are numbers, each taken from its own key |
| Schemas.StatsBreakdown | app/lib/schemas.ts:37-38 | the breakdown must be an array of valid entries, parsed entry by entry, and the currency a 3-unit string, both from the input |
| Schemas.ParseMonthlyStats | app/lib/schemas.ts:30-39 | accepted statistics have every declared field: the six counters are numbers taken from the input, the breakdown parses entry by entry, and the currency is the input's 3-unit string |
| Schemas.ParseTokenResponse | app/lib/schemas.ts:41-44 | accepted iff both token fields are strings, which are returned |
| Schemas.ParseTelegramAuthData | app/lib/schemas.ts:46-54 | the required fields are taken from the input; each optional one is absent exactly when its key is, and when present it is the input's string |
| Schemas.ParseExpenseCreate | app/lib/schemas.ts:56-62 | `description` defaults to "" and `currency` to "NZD"; the supplied fields are checked |
| Schemas.ParseExpenseUpdate | app/lib/schemas.ts:64-70 | each field is present exactly when supplied, and each supplied field passes the create check |
| Schemas.ParseExpenseDeleteResponse | app/lib/schemas.ts:72-75 | accepted iff `success` is a boolean and `message` a string |
| SchemaProperties.ExpenseToJson | app/lib/schemas.ts:7-15 | the serialized expense carries every declared key |
| SchemaProperties.ExpenseRoundTrip | app/lib/schemas.ts:7-15 | a valid expense, serialized, parses back to itself |
| SchemaProperties.ExpenseIgnoresUndeclaredKeys | app/lib/schemas.ts:7-15 | undeclared keys do not affect the parse (they are stripped) |
| SchemaProperties.ExpenseConstraintViolationRejected | app/lib/schemas.ts:9-13 | a negative amount or a currency not of length 3 is rejected |
| SchemaProperties.ExpenseListToJson | app/lib/schemas.ts:18 | the serialized list has one item per expense |
| SchemaProperties.ExpenseListRoundTrip | app/lib/schemas.ts:18 | a list of valid expenses, serialized, parses back to itself |
| SchemaProperties.OneBadExpenseRejectsResponse | app/lib/schemas.ts:17-22 | a single invalid expense rejects the whole page |
| SchemaProperties.OneBadBreakdownRejectsStats | app/lib/schemas.ts:30-39 | a single invalid breakdown entry rejects the statistics |
| SchemaProperties.CreateDefaults | app/lib/schemas.ts:56-62 | a create payload with only amount and category gets description "" and currency "NZD" |
| SchemaProperties.CreateRejectsNegativeAmount | app/lib/schemas.ts:57 | a negative amount is rejected on create |
| SchemaProperties.CreateChecksSuppliedCurrency | app/lib/schemas.ts:60 | a supplied currency that is not of length 3 is rejected, default notwithstanding |
| SchemaProperties.UpdateAcceptsEmptyObject | app/lib/schemas.ts:64-70 | an empty update is valid and changes nothing |
| SchemaProperties.UpdateChecksSuppliedFields | app/lib/schemas.ts:65-68 | a supplied negative amount or malformed currency rejects an update |
| SchemaProperties.TelegramOptionalFieldsMayBeAbsent | app/lib/schemas.ts:46-54 | login data with only the required fields is accepted |
| SchemaProperties.BreakdownToJson | app/lib/schemas.ts:37 | the serialized breakdown has one object per entry |
| SchemaProperties.BreakdownRoundTrip | app/lib/schemas.ts:24-37 | every breakdown, serialized, parses back to itself |
| SchemaProperties.MonthlyStatsRoundTrip | app/lib/schemas.ts:30-39 | statistics with a 3-unit currency, serialized, parse back to themselves |
| SchemaProperties.TelegramAuthDataRoundTrip | app/lib/schemas.ts:46-54 | login data, serialized with absent optional fields left out, parses back to itself |
| SchemaProperties.TokenResponseRoundTrip | app/lib/schemas.ts:41-44 | a token response, serialized, parses back to itself |
| Api.RequestHeaders | app/lib/api.ts:31-38 | the JSON content type unless the caller overrides it, the caller's headers, and `Bearer <token>` over everything when a token is stored |
| Api.AuthorizedRequest | app/lib/api.ts:29-43 | the request goes to the base URL plus the endpoint with the caller's method and body, the JSON content type, and `Bearer <token>` exactly when a token is stored; without one, an `Authorization` header is present only if the caller sent it |
| Api.ErrorDetail | app/lib/api.ts:53-56 | an unparsable error body reads as `{detail: fallback}`; a `null` body makes the read throw |
| Api.Classify | app/lib/api.ts:40-59 | no response is a network failure; 401 is `Unauthorized`; another failure status is an `ApiError` with that status and a truthy message, or a TypeError for a `null` body; an ok response, and only an ok response, is passed through unchanged |
| Api.ApiErrorMessage | app/lib/api.ts:52-57 | the message is the body's truthy `detail`, else "API request failed", and "Unknown error" for an unparsable body |
| Api.FetchWithAuth | app/lib/api.ts:25-60 | the result is the classification of the authorized request's response; the token is cleared exactly on the 401 path |
| Api.ParseBody | app/lib/api.ts:93-95 | a failure passes through; otherwise the body must parse as JSON and pass the schema |
| Api.FetchParsed | app/lib/api.ts:93-95 | an authenticated GET, then the schema; the token changes only on 401 |
| Api.GetExpenses | app/lib/api.ts:84-96 | fetches `ExpensesPath` and parses it as a page of expenses |
| Api.GetExpensesByCategory | app/lib/api.ts:98-113 | fetches `CategoryPath` and parses it as a page of expenses |
| Api.GetExpensesByDateRange | app/lib/api.ts:115-131 | fetches `DateRangePath` and parses it as a page of expenses |
| Api.GetMonthlyStats | app/lib/api.ts:133-145 | fetches `MonthlyStatsPath` and parses it as monthly statistics |
| Api.TelegramLoginRequest | app/lib/api.ts:66-70 | the login sends only the JSON content type and never a credential |
| Api.AuthenticateWithTelegram | app/lib/api.ts:63-81 | never the 401 redirect; a failure status, 401 included, is an `ApiError` with that status carrying `detail` as it is ("Authentication failed" for an unparsable body), or a TypeError exactly when the body is `null`; an ok response with an unparsable body or one the schema rejects fails accordingly; success iff an ok response parses as a token response |
| Api.HealthRequest | app/lib/api.ts:149 | the health request carries no headers |
| Api.HealthCheck | app/lib/api.ts:148-151 | the parsed body of any response, whatever its status, with no schema |
| Api.ExpensesPath | app/lib/api.ts:84-93 | the `getExpenses` path, with the 50/0 defaults; its text is stated by ExpensesPathShape |
| Api.CategoryPath | app/lib/api.ts:98-110 | the `getExpensesByCategory` path; its text is stated by CategoryPathShape |
| Api.DateRangeParams | app/lib/api.ts:121-126 | the four date-range parameters; their order is stated by DateRangeParameterOrder |
| Api.DateRangePath | app/lib/api.ts:115-128 | the `getExpensesByDateRange` path, the serialized DateRangeParams after `?` |
| Api.MonthlyStatsPath | app/lib/api.ts:133-142 | the `getMonthlyStats` path; its text is stated by MonthlyStatsPathShape |
| Api.ExpensesPathShape | app/lib/api.ts:88-93 | the path reads `/expenses/?limit=L&offset=O` |
| Api.DefaultExpensesPath | app/lib/api.ts:84-93 | with the defaults the path is `/expenses/?limit=50&offset=0` |
| Api.CategoryPathShape | app/lib/api.ts:103-110 | the category is one encoded segment before `?limit=L&offset=O`, with no `/`, `?` or `#` |
| Api.DateRangeParameterOrder | app/lib/api.ts:121-128 | the parameters are `start_date`, `end_date`, `limit`, `offset`, in that order |
| Api.MonthlyStatsPathShape | app/lib/api.ts:137-142 | the path reads `/expenses/stats/monthly?month=M&year=Y` |
| Api.UnauthorizedStatsFetch | app/lib/api.ts:46-50 | a 401 mid-session clears the token, and the session is no longer authenticated |
| ExpenseList.NumberOr | app/routes/dashboard/expenses.tsx:7-8 | `n \|\| fallback` keeps a non-zero number and replaces `NaN` and `0` |
| ExpenseList.ParamNumber | app/routes/dashboard/expenses.tsx:7-8 | a missing parameter converts to 0 |
| ExpenseList.LoaderLimit | app/routes/dashboard/expenses.tsx:7 | the limit is never 0: 50 when absent, `0` or not a number, otherwise the parameter |
| ExpenseList.LoaderOffset | app/routes/dashboard/expenses.tsx:8 | the offset is 0 when absent or not a number, otherwise the parameter |
| ExpenseList.FloorDiv | app/routes/dashboard/expenses.tsx:20 | the floor of the exact quotient, for either sign of divisor |
| ExpenseList.CeilDiv | app/routes/dashboard/expenses.tsx:19 | the ceiling of the exact quotient, for either sign of divisor |
| ExpenseList.TotalPages | app/routes/dashboard/expenses.tsx:19 | `Math.ceil(total_count / limit)`, unclamped; bounded by TotalPagesBounds and NoResultsKeepNextEnabled |
| ExpenseList.CurrentPage | app/routes/dashboard/expenses.tsx:20 | `Math.floor(offset / limit) + 1`; stated by CurrentPageIsPositive and GoToPageRoundTrip |
| ExpenseList.PageOffset | app/routes/dashboard/expenses.tsx:23 | `(page - 1) * limit`; inverted by CurrentPage (GoToPageRoundTrip) |
| ExpenseList.NavigationQuery | app/routes/dashboard/expenses.tsx:24 | `?limit=L&offset=O`; its pieces are stated by NavigationCarriesOnlyPaging |
| ExpenseList.PreviousDisabled | app/routes/dashboard/expenses.tsx:88 | Previous is disabled on page 1; characterised by PreviousDisabledOnFirstPage |
| ExpenseList.NextDisabled | app/routes/dashboard/expenses.tsx:98 | Next is disabled on the last page; stated by LastPageDisablesNext and NoResultsKeepNextEnabled |
| ExpenseList.CurrentPageIsPositive | app/routes/dashboard/expenses.tsx:20 | a non-negative offset and positive limit give a page of at least 1 |
| ExpenseList.PreviousDisabledOnFirstPage | app/routes/dashboard/expenses.tsx:20-88 | Previous is disabled exactly when the offset lies in the first page |
| ExpenseList.GoToPageRoundTrip | app/routes/dashboard/expenses.tsx:20-25 | reading the page back from `goToPage(p)`'s offset gives `p`, for any non-zero limit |
| ExpenseList.TotalPagesBounds | app/routes/dashboard/expenses.tsx:19 | for a non-empty list, the pages hold every expense and none is empty |
| ExpenseList.NoResultsKeepNextEnabled | app/routes/dashboard/expenses.tsx:19-98 | with zero expenses there are zero pages, the page is 1, and Next stays enabled |
| ExpenseList.LastPageDisablesNext | app/routes/dashboard/expenses.tsx:19-98 | any offset inside the last page disables Next |
| ExpenseList.NextMovesOnePage | app/routes/dashboard/expenses.tsx:22-25 | Next and Previous from an aligned offset move it by exactly one limit |
| ExpenseList.NavigationCarriesOnlyPaging | app/routes/dashboard/expenses.tsx:24 | the navigation query has exactly two parameters, `limit` then `offset` |
| Settings.WithoutId | app/routes/dashboard/settings.tsx:55 | exactly the accounts whose id differs are kept |
| Settings.Ids | app/routes/dashboard/settings.tsx:55 | the set of listed ids |
| Settings.IdCount | app/routes/dashboard/settings.tsx:55 | zero exactly when the id is not listed |
| Settings.WithoutIdKeepsOrder | app/routes/dashboard/settings.tsx:55 | the kept accounts stay in their original order |
| Settings.WithoutIdLength | app/routes/dashboard/settings.tsx:55 | exactly the accounts carrying the id are dropped |
| Settings.UniqueIdCount | app/routes/dashboard/settings.tsx:55 | with unique ids a listed id occurs once |
| Settings.UnlinkDisabled | app/routes/dashboard/settings.tsx:115 | the unlink button is disabled while at most one account is linked; used by UnlinkFromPageLeavesOne |
| Settings.UnlinkFromPageLeavesOne | app/routes/dashboard/settings.tsx:114-115 | an unlink from an enabled button, with unique ids, removes one account and leaves at least one |
| Settings.Names | app/routes/dashboard/settings.tsx:63 | the provider name of each account, in order |
| Settings.NotLinked | app/routes/dashboard/settings.tsx:64-66 | exactly the names not linked are kept |
| Settings.NotLinkedKeepsOrder | app/routes/dashboard/settings.tsx:64-66 | the kept names stay in their original order |
| Settings.UnlinkedProviders | app/routes/dashboard/settings.tsx:63-66 | exactly the known providers whose name no linked account carries |
| Settings.UnlinkedProvidersExactly | app/routes/dashboard/settings.tsx:23-66 | the not-connected list is the known providers with no linked account, disjoint from the linked names, covering every known provider with them, in known order |
| Settings.UnlinkOffersProviderAgain | app/routes/dashboard/settings.tsx:55-66 | unlinking a provider's only account shows it as not connected again |
| Settings.Label | app/routes/dashboard/settings.tsx:17-21 | the capitalised label of a known provider, otherwise the raw name |
| Settings.KnownLabels | app/routes/dashboard/settings.tsx:17-23 | the three known providers are labelled Google, Apple, Telegram |
| Settings.OrString | app/routes/dashboard/settings.tsx:108-109 | a nullable string `\|\|` the next one: `null` and `""` fall through |
| Settings.SecondaryText | app/routes/dashboard/settings.tsx:108-109 | the first non-empty of display name and email, otherwise the provider user id |
| Settings.SettingsPage.constructor | app/routes/dashboard/settings.tsx:33-35 | the page starts with no accounts, loading, and no error |
| Settings.SettingsPage.FetchProviders | app/routes/dashboard/settings.tsx:37-46 | loading always ends; success replaces the list; failure keeps it and shows "Failed to load linked providers" |
| Settings.SettingsPage.HandleUnlink | app/routes/dashboard/settings.tsx:52-61 | success drops the account; failure keeps the list and shows the error's message, or "Failed to unlink provider" for a non-`Error` |
| Settings.UnlinkRemovesOnlyThatId | app/routes/dashboard/settings.tsx:52-55 | after a successful unlink the id is gone and every other account is still listed, in order |
| Utils.Value | app/lib/utils.ts:41-57 | each category's string value; injective by FromValueOfValue and CategoriesAreDistinct |
| Utils.FromValue | app/lib/utils.ts:41-57 | the category whose string value is the given string |
| Utils.FromValueOfValue | app/lib/utils.ts:41-57 | every category's value is recognised as that category |
| Utils.Position | app/lib/utils.ts:41-57 | each category has a place in the declaration order |
| Utils.CategoriesAreListed | app/lib/utils.ts:41-57 | there are fifteen categories, each listed exactly once |
| Utils.CategoriesAreDistinct | app/lib/utils.ts:41-57 | no two of the fifteen categories share a string value |
| Utils.HexColor | app/lib/utils.ts:60-76 | each category's colour; well formed by ColorIsHex and distinct by ColorsAreDistinct |
| Utils.FromColor | app/lib/utils.ts:60-76 | the category drawn in a colour |
| Utils.FromColorOfColor | app/lib/utils.ts:60-76 | each category's colour identifies it |
| Utils.ColorIsHex | app/lib/utils.ts:60-76 | every colour is a `#rrggbb` hex colour |
| Utils.ColorsAreDistinct | app/lib/utils.ts:60-76 | no two categories share a colour |
| Utils.CategoryColor | app/lib/utils.ts:78-83 | a category value gets its colour; any other string gets Miscellaneous's `#6b7280` |
| Utils.FromValueIsInverse | app/lib/utils.ts:41-57 | a string names at most one category |
| Utils.UnknownCategoryIsGray | app/lib/utils.ts:78-83 | a string that is no category's value is drawn gray |
| Utils.FirstChars | app/lib/utils.ts:89-90 | the first character of each word, and nothing for an empty word |
| Utils.WordStarts | app/lib/utils.ts:86-91 | reference definition: the characters that begin a space-separated word |
| Utils.FirstCharsOfSplit | app/lib/utils.ts:88-90 | splitting on spaces and taking first characters picks exactly the word starts, so repeated, leading and trailing spaces contribute nothing |
| Utils.Prefix | app/lib/utils.ts:92 | `slice(0, n)` keeps at most n characters, as a prefix |
| Utils.Initials | app/lib/utils.ts:86-93 | the initials have at most 2 characters |
| Utils.InitialsAreWordStarts | app/lib/utils.ts:86-93 | the initials are the upper-cased starts of the first two words |
| Utils.FallbackInitials | app/routes/dashboard/_layout.tsx:65 | the fallback name "User" shows as "U" |
| Utils.TwoWordInitials | app/lib/utils.ts:86-93 | two words separated by a space contribute their first characters, in order |
| Utils.NoSpaceStarts | app/lib/utils.ts:88-89 | a word without spaces contributes its first character once |
| Utils.StartsAfterWord | app/lib/utils.ts:88-89 | after a word come the word starts of the rest |
| Utils.MidWordStarts | app/lib/utils.ts:88-89 | inside a word nothing starts before the next space |

## Left out

- Browser storage, `fetch`, `Date.now()`, `atob`, `JSON.parse`, `JSON.stringify`,
  `toISOString()`, `z.coerce.date()` and string-to-`Number` conversion are foreign. They
  are parameters of the model, as listed above. `getLinkedProviders` and
  `unlinkProvider` are not part of this model either, since their source is not
  available. The settings methods receive how each call ended.
- Concurrency: every `await` is treated as completing before the next step. Interleaved
  requests and React's batched state updates are not modelled.
- Auth.NumericValue: a string `exp` such as `"123"` is taken as NaN, which never
  expires; JavaScript would convert it to a number. Numbers, booleans, `null`, arrays and
  objects are converted as JavaScript converts them.
- Auth.JoinedNumber: a one-element array holding a non-empty string is taken as NaN, for
  the same reason; JavaScript would convert the string.
- JsonValues.Json: JSON numbers are exact reals, not IEEE doubles, so rounding, `-0`,
  `Infinity` and the precision limit of large numbers are not modelled.
- JsString.IntToString: the decimal never switches to the exponent form that
  `toString` prints from 1e21 upwards.
- Api.Classify: the `ApiError` message is kept as the JSON value handed to `Error`. Its
  conversion to a string is not modelled.
- Api.FetchWithAuth: headers are a map with case-sensitive keys, so an `authorization`
  header from the caller is kept beside `Authorization`. `fetch` would merge the two.
  The base URL is a parameter, because it comes from the build environment.
- Api.GetExpensesByDateRange: the dates are their `toISOString()` text.
- ExpenseList.LoaderLimit: limits, offsets and counts are integers. JavaScript numbers
  are IEEE doubles, so non-integer parameters, `Infinity` and rounding in
  `(page - 1) * limit` are not modelled. `URL` parsing of the search parameters is not
  modelled; the parameter's text is an input.
- JsString.UpperChar: only ASCII lower-case letters are mapped; every other character is
  kept as it is.
- JsString.Upper: `toUpperCase` is modelled for ASCII letters only. Full Unicode case
  mapping, which can change a string's length (`ß` becomes `SS`), is not modelled.
- Utils.FirstChars: it takes a word's first code point, where `n[0]` takes its first
  UTF-16 code unit.
- Utils.Initials: characters are Unicode code points. JavaScript's `n[0]` and `slice`
  count UTF-16 code units, so for a word starting with a character outside the basic
  plane the code takes a lone surrogate and the model takes the whole character.
- Utils.CategoryColor: inherited object keys such as `"constructor"` are not looked up.
  In JavaScript they would yield a function instead of the fallback.
- Settings.Label: inherited object keys such as `"constructor"` are not looked up either;
  JavaScript would yield a function instead of the raw name.
- The JSX markup, the loading spinner, the error banner's rendering and the disabled
  Telegram/OAuth link texts are presentation, with no logic to prove.
- `formatCurrency`, `formatDate` and `cn` in `app/lib/utils.ts` wrap `Intl`, clsx and
  tailwind-merge. The other pages (dashboard, categories, stats, login, logout, auth
  callback), their floating-point display arithmetic, and the modals are not part of
  this model.
