# Financial-advisor chat and session helpers in Dafny

This project models the logic of a web application. The application is a
financial-advisor chat, plus helpers for an expert-session marketplace.
Four parts are modelled:

- **Email routing** (`utils/email.ts`, module `Email`). Each email category
  is routed to one transport. Resend-routed mail falls back to SMTP on any
  Resend failure. The error text differs for a rate-limit failure. Mail
  without a plain-text part gets one by stripping tags from the HTML.
- **Session helpers** (`utils/sessionUtils.js`, module `Session`):
  - the time-driven status update;
  - the status-to-style table;
  - the status label;
  - the relative-time label.
- **Chat tools** (`app/api/chat/tools.ts`, module `Tools`). Provider
  adapters normalise already-parsed payloads. Seven tools turn adapter
  results into `{success, data?, message}`.
- **Chat page decisions** (the pure parts of `app/page.tsx`, module
  `ChatPage`):
  - message display text and the tool-loading indicator;
  - friendly tool labels;
  - the submit guard;
  - status flags and the status label;
  - per-segment markdown unwrapping and code fences;
  - the theme toggle.

`Base` holds `Option` and `Validated`. `Text` holds the JavaScript string
primitives the source relies on: `indexOf`, `includes`, first-match
`replace`, `trim`, ASCII case mapping, `join` and decimal rendering.

Things the code cannot decide on its own are parameters:

- every provider response (`None` when the fetch, the parse or the expected
  key failed);
- each mail client's outcome;
- the environment variables;
- the current time, as integer milliseconds;
- number parsing and formatting, kept uninterpreted in a `Numerics` record;
- `JSON.stringify`.

A JavaScript number is `Finite(real)` or `NaN`. That keeps the `>= 0`
sign tests and the truthiness of a missing forex rate exact for finite
numbers and NaN.

## Model

| member | source | states |
|---|---|---|
| Email.ResendCategories | utils/email.ts:19-23 | Only welcome and expert-application mail is routed to Resend first; admin mail and mail without a category are not |
| Email.StripTags | utils/email.ts:67 | Removing every `<…>` run leaves no tag. It keeps only characters of the input, at most as many of each as the input has |
| Email.StripTagsKeepsTagFree | utils/email.ts:67 | Text that holds no complete tag comes back unchanged |
| Email.StripTagsWithoutMarkup | utils/email.ts:67 | HTML containing no `<` comes back unchanged |
| Email.StripTagsPlainPrefix | utils/email.ts:67 | Text before the first `<` is kept as it is, and stripping goes on after it |
| Email.StripTagsDeletesTag | utils/email.ts:67 | A `<` up to the first `>` after it is deleted as a whole, and stripping goes on after the `>` |
| Email.StripTagsIdempotent | utils/email.ts:67 | Stripping tags twice gives the same as stripping once |
| Email.PlainText | utils/email.ts:101 | A non-empty `text` is used verbatim. Otherwise the result is the HTML with its tags deleted: it is tag-free, no longer than the HTML, and equal to it when there is no `<` |
| Email.SendWithResend | utils/email.ts:54-87 | Succeeds iff the API key is set and the client delivers. A missing key is reported as an error, with nothing handed to the client. Client errors carry their message, or "Unknown Resend error" |
| Email.SendWithSmtp | utils/email.ts:90-129 | Succeeds iff both credentials are set and the client delivers. The error is present iff it failed. Missing credentials become an error result, not an exception, and nothing is sent. Client errors carry their message, or "Unknown SMTP error" |
| Email.DoubleFailureText | utils/email.ts:151-181 | It always ends with the SMTP error. It opens with the rate-limit prefix exactly when the Resend error mentions rate limit, quota or daily limit, and then nothing stands between prefix and SMTP error. Otherwise it is the both-failed prefix, the Resend error, ", SMTP: " and the SMTP error, with nothing else |
| Email.SendEmail | utils/email.ts:132-190 | Resend is tried first iff the category routes there. A Resend success ends with service "resend" and no SMTP attempt. Any Resend failure is followed by exactly one SMTP attempt, ending as "smtp-fallback" or "failed". The direct path makes one SMTP attempt, labelled "smtp" even on failure. Success holds iff there is no error |
| Email.RateLimitOnlyChangesErrorText | utils/email.ts:151-182 | Any two failing Resend outcomes lead to the same attempts, success and service; only the error text can differ |
| Email.DirectSmtpIgnoresResend | utils/email.ts:183-190 | On the direct SMTP path the Resend client's outcome has no influence at all |
| Email.ResendSuccessIgnoresSmtp | utils/email.ts:145-149 | When Resend succeeds, the SMTP client's outcome has no influence at all |
| Session.CheckSessionTimeStatus | utils/sessionUtils.js:40-69 | An unscheduled or start-less session keeps its status, or gets "unknown". Accepted or upcoming inside the window becomes "active". Accepted, upcoming or active past the end becomes "completed". Only those three statuses ever change, and only to "active" or "completed". In every other case the status is returned unchanged |
| Session.CheckSessionTimeStatusIsStable | utils/sessionUtils.js:40-69 | Storing the computed status and checking again at the same time gives the same status |
| Session.CompletedIsPermanent | utils/sessionUtils.js:59-66 | A session found completed is still completed at any later time |
| Session.GetStatusStyling | utils/sessionUtils.js:72-96 | Each listed status gets its own class, which is never the default one; every other string gets the default class |
| Session.StyledStatuses | utils/sessionUtils.js:73-93 | Exactly the eleven named statuses are styled, and none of them uses the default class |
| Session.DefaultLabel | utils/sessionUtils.js:122-125 | Same length. The first character is upper-cased. Only the first `_` after it turns into a space; every other character is kept |
| Session.GetStatusText | utils/sessionUtils.js:99-126 | "Upcoming", "Pending Review" and "Reschedule Proposed" take precedence in that order; every other status gets its default label |
| Session.FormatDisplayTime | utils/sessionUtils.js:4-12 | No date gives "N/A", and under a minute (future dates included) gives "Just now". Otherwise the label is the whole number of minutes, then hours, that have elapsed. A day or more is handed to calendar formatting |
| Tools.SignPrefix | app/api/chat/tools.ts:217-219 | A change is prefixed "+" exactly when it is not negative (NaN is not) |
| Tools.FetchStockQuote | app/api/chat/tools.ts:46-75 | There is a quote iff "Global Quote" is present and non-empty. Each numbered provider field lands in its named field. The percentage is parsed after dropping its first "%" |
| Tools.FetchCryptoPrice | app/api/chat/tools.ts:78-93 | There is a coin iff the list is non-empty, and it is the first element unchanged |
| Tools.FetchTopCryptos | app/api/chat/tools.ts:96-107 | The provider's list unchanged, or empty when there is none |
| Tools.FetchForexRate | app/api/chat/tools.ts:110-133 | There is a rate iff the target's entry is truthy, so 0 counts as missing. Base and target echo the request |
| Tools.TruncateSummary | app/api/chat/tools.ts:159 | At most 203 characters, ending in "...", and the part before the dots is a prefix of the summary. Short summaries are kept whole; a missing summary reads "undefined..." |
| Tools.NormalizeNews | app/api/chat/tools.ts:150-164 | `time_published` becomes `publishedAt` and `overall_sentiment_label` becomes `sentiment`; title, source and url are kept |
| Tools.FetchMarketNews | app/api/chat/tools.ts:136-172 | No feed gives no news. Otherwise the first min(5, n) items are normalised, in order, each with a bounded summary ending in "..." |
| Tools.FetchFearGreedIndex | app/api/chat/tools.ts:175-196 | There is an index iff the data is non-empty, and it comes from the first entry |
| Tools.Failure | app/api/chat/tools.ts:227-230 | A failed tool result has no data and a non-empty message |
| Tools.GetStockQuote | app/api/chat/tools.ts:208-231 | The lookup uses the upper-cased symbol. Success iff there is a quote, and the quote is the data. A failure has no data, and its message repeats the symbol as typed |
| Tools.StockSymbolCaseInsensitive | app/api/chat/tools.ts:209 | Symbols differing only in letter case give the same success and data |
| Tools.GetCryptoPrice | app/api/chat/tools.ts:244-265 | The lookup uses the lower-cased id, and the first coin is the data. A failure has no data, and its message repeats the id as typed |
| Tools.CoinIdCaseInsensitive | app/api/chat/tools.ts:245 | Coin ids differing only in letter case give the same success and data |
| Tools.ValidateTopLimit | app/api/chat/tools.ts:272-277 | An absent limit becomes 10. A given limit is accepted iff it lies in [1, 20], and is then kept |
| Tools.TopCryptoLines | app/api/chat/tools.ts:282-290 | One line per coin, numbered from 1 in input order |
| Tools.GetTopCryptos | app/api/chat/tools.ts:268-303 | A limit outside [1, 20] is rejected before any lookup. Success iff coins came back. The header names the requested limit, not the count; the lines follow, joined by newlines |
| Tools.GetForexRate | app/api/chat/tools.ts:316-334 | Both codes are upper-cased, and the result carries the upper-cased codes. A failure has no data and repeats both codes as typed |
| Tools.NewsLines | app/api/chat/tools.ts:351-357 | One entry per item, numbered from 1 in feed order, starting with the bold title |
| Tools.GetMarketNews | app/api/chat/tools.ts:348-369 | Success iff news came back. The message is the header followed by the entries, separated by blank lines. A failure has no data |
| Tools.GetFearGreedIndex | app/api/chat/tools.ts:376-389 | Success iff the index was fetched, and the index is the data. A failure has no data |
| Tools.SentimentSection | app/api/chat/tools.ts:405-407 | The sentiment paragraph is present exactly when the index was fetched |
| Tools.TrendIcon | app/api/chat/tools.ts:412 | The rising icon exactly when the 24h change is not negative |
| Tools.CryptoSection | app/api/chat/tools.ts:409-419 | The coin list is present exactly when coins came back, under its heading |
| Tools.GetMarketOverview | app/api/chat/tools.ts:396-425 | Always succeeds, without data. The message is the header, then the sentiment section, then the coin section; the coins are looked up with limit 3 |
| ChatPage.Contribution | app/page.tsx:326-339 | A text part with non-empty text contributes that text. A finished tool call with an output contributes the tool's message, or the output's JSON when the message is empty. A running tool call contributes nothing. A non-empty contribution comes from one of the first two cases |
| ChatPage.Contributions | app/page.tsx:324-340 | The contributions left after filtering are all non-empty, and there are no more of them than parts |
| ChatPage.ContributionsEmpty | app/page.tsx:324-340 | No contribution is left iff every part contributes "" |
| ChatPage.ContributionsSingle | app/page.tsx:324-340 | A single part leaves its contribution, or nothing when that is "" |
| ChatPage.ContributionsAppend | app/page.tsx:324-340 | The contributions of concatenated parts concatenate |
| ChatPage.MessageText | app/page.tsx:324-341 | The display text is empty iff no part contributes |
| ChatPage.MessageTextSingle | app/page.tsx:324-341 | The display text of a single part is its contribution |
| ChatPage.MessageTextAppend | app/page.tsx:324-341 | Appending parts appends their text after one blank line, or changes nothing when either side is empty |
| ChatPage.PendingFrom | app/page.tsx:317-321 | Finds the first running tool part at or after a position, or reports that none exists |
| ChatPage.PendingTool | app/page.tsx:317-321 | The first tool part in state "call" or "partial-call", absent iff there is none |
| ChatPage.ShowToolLoading | app/page.tsx:344 | The indicator shows iff nothing contributes text and some tool call is running |
| ChatPage.LabelFor | app/page.tsx:367 | A known tool name gets its label; any other name gets the generic label |
| ChatPage.ToolDisplayName | app/page.tsx:356-368 | The label is always one of the seven tool labels or the generic one. A type starting with "tool-" is looked up by the rest; a type without "tool-" is looked up as it is |
| ChatPage.ToolDisplayNameOfType | app/page.tsx:356-368 | "tool-" followed by a known tool name shows that tool's label; any other name shows the generic label |
| ChatPage.ToolLabelsDistinct | app/page.tsx:358-366 | Each of the seven tools has its own label, distinct from the generic one |
| ChatPage.HandleSubmit | app/page.tsx:483-488 | Sends the input as typed and clears it iff the trimmed input is non-empty and the chat is ready; otherwise nothing changes |
| ChatPage.BlankInputNeverSent | app/page.tsx:485 | Nothing is sent iff the chat is not ready or the input is all white space |
| ChatPage.StatusLabel | app/page.tsx:537-541 | "Online" iff ready. "Responding..." iff streaming. "Thinking..." for a submitted or errored chat |
| ChatPage.LoadingFlags | app/page.tsx:450-451 | Loading iff streaming or submitted; streaming implies loading |
| ChatPage.SliceInner | app/page.tsx:197 | `slice(k, -k)`: the input is the first k characters, the result, then the last k. When those overlap the result is "" |
| ChatPage.Unwrap | app/page.tsx:222-245 | A segment is unwrapped iff it starts and ends with the delimiter, which then surrounds the result |
| ChatPage.InlineMarksRoundTrip | app/page.tsx:222-245 | Text wrapped in a backtick, in `**` or in `*` unwraps to the text under the inline-code, bold and italic decisions |
| ChatPage.UnwrapRoundTrip | app/page.tsx:222-245 | Unwrapping a delimited text gives the text back |
| ChatPage.SplitFenceContent | app/page.tsx:198-204 | If the first newline is past index 0, the language is the trimmed text before it and the code is the text after it. Otherwise there is no language, and everything is code |
| ChatPage.FencedBlock | app/page.tsx:196-205 | A part is a code block iff it starts and ends with three backticks |
| ChatPage.FencedBlockOfContent | app/page.tsx:195-203 | Any fenced part gives the block read from its inside: the trimmed text before a first newline past index 0 is the language and the rest is code, otherwise all of it is code |
| ChatPage.FenceRoundTrip | app/page.tsx:196-205 | A fence with a one-line, trimmed language tag gives back that tag and the code |
| ChatPage.FenceWithoutLanguage | app/page.tsx:196-205 | A fence whose content has no tag line is all code, with no language |
| ChatPage.ToggleTheme | app/page.tsx:466-471 | Toggling always changes the theme |
| ChatPage.ToggleThemeInvolution | app/page.tsx:466-471 | Toggling twice restores the theme |
| Text.IndexOf | app/page.tsx:198 | `indexOf`: the first occurrence, or -1 iff there is none |
| Text.IndexOfChar | app/page.tsx:198 | The first position of a character, or -1 iff it does not occur |
| Text.IndexOfSingle | app/page.tsx:198 | Searching a one-character string is searching that character |
| Text.ContainsIffOccurs | utils/email.ts:152-155 | `includes` holds iff the text occurs at some position |
| Text.ReplaceFirst | utils/sessionUtils.js:124 | String `replace` changes only the first occurrence, and returns the input when there is none |
| Text.ReplaceLeadingPattern | app/page.tsx:357 | Replacing a pattern that the text starts with swaps just that prefix |
| Text.ReplaceFirstChar | utils/sessionUtils.js:124 | Replacing one character by another keeps the length and changes exactly the first occurrence |
| Text.ToUpper | app/api/chat/tools.ts:209 | Same length, no lower-case letter left, and each character keeps its letter |
| Text.ToLower | app/api/chat/tools.ts:245 | Same length, no upper-case letter left, and each character keeps its letter |
| Text.ToUpperIgnoresCase | app/api/chat/tools.ts:209 | Strings equal up to case upper-case to the same string |
| Text.ToLowerIgnoresCase | app/api/chat/tools.ts:245 | Strings equal up to case lower-case to the same string |
| Text.ToUpperIdempotent | app/api/chat/tools.ts:317-320 | Upper-casing twice is upper-casing once |
| Text.Trim | app/page.tsx:485 | The trimmed text is no longer than the input, and neither begins nor ends with white space |
| Text.TrimIsPadded | app/page.tsx:485 | The input is the trimmed text with only white space before and after it |
| Text.TrimStart | app/page.tsx:485 | Removes exactly the leading white space |
| Text.TrimEnd | app/page.tsx:485 | Removes exactly the trailing white space |
| Text.TrimEmptyIffBlank | app/page.tsx:485 | The trimmed text is empty iff every character is white space |
| Text.TrimOfTrimmed | app/page.tsx:200 | Text without white space at either end trims to itself |
| Text.JoinEnds | app/page.tsx:341 | A join of at least one element starts with the first element and ends with the last |
| Text.JoinAppend | app/page.tsx:341 | Joining a concatenation joins the two joins with one more separator |
| Text.JoinEmptyIffNone | app/page.tsx:341 | With no empty element, the join is empty iff there are no elements |
| Text.NatToString | app/api/chat/tools.ts:285 | A decimal numeral: digits only, with no leading zero |
| Text.NatToStringRoundTrip | app/api/chat/tools.ts:285 | Reading the numeral back gives the number |
| Text.NatToStringInjective | app/api/chat/tools.ts:285 | Different positions get different numerals |

## Left out

- HTTP requests, response parsing and the two mail clients are inputs. Each
  provider response is an already-parsed payload, and each mail client is a
  delivery outcome.
- A provider payload of the wrong shape is not modelled. Examples: a
  non-array coin response, or a coin without `symbol`, which makes the
  source throw.
- The email templates, the SMTP headers (including the random Message-ID)
  and all logging are not modelled.
- The overview tool runs its two lookups with `Promise.all`. The model
  takes both results as inputs, because the outcome does not depend on
  their order.
- `app/api/chat/route.ts` is only a call into the model-streaming SDK, so
  it is not modelled.
- Float parsing and formatting are uninterpreted functions:
  - `parseFloat`, `parseInt`, `toFixed`, `toLocaleString`, and the
    rendering of a number in a template;
  - division by 1e9 is exact real division.
- Tools.JsNumber: infinities are not modelled. In JavaScript
  `parseFloat("Infinity") >= 0` holds and gets the "+" prefix; the model's
  numbers are finite reals or NaN only.
- The tool input schemas are not modelled beyond the top-cryptos limit.
  The limit is a real number; how zod treats NaN or infinite limits is not
  modelled.
- Text.ToUpper: ASCII letters only, not full Unicode case mapping. The
  symbols, coin ids and currency codes the tools receive are ASCII.
- Text.ToLower: ASCII letters only, for the same reason.
- Tools.TruncateSummary: it counts characters, whereas JavaScript counts
  UTF-16 code units, so a summary with characters outside the Basic
  Multilingual Plane may be cut at a different place.
- Session.FormatDisplayTime: dates a day or more old are returned as
  `Calendar(date)`. The "Yesterday", weekday and month branches are
  locale-dependent calendar formatting and are not modelled.
- Session.CheckSessionTimeStatus: times are integers, and an absent end
  time makes every end comparison false. A `null` end time is treated like
  an absent one, although in the source `new Date(null)` is epoch 0, so an
  accepted, upcoming or active session with a `null` end reads "completed".
  Date strings that parse to invalid dates are not modelled separately.
- Session.DefaultLabel: upper-cases the first character by ASCII mapping
  only. Full Unicode `toUpperCase` can lengthen a string (ß becomes SS),
  which would break the "same length" property. Statuses in this system
  are a fixed set of ASCII words.
- Tools.ValidateTopLimit: the rejection text comes from the schema
  library and is not modelled. The two reasons in the model are
  placeholders that only tell the two bounds apart.
- Session.GetStatusText requires a status. The source calls `charAt` on
  it and throws when it is absent.
- Session.GetStatusStyling and Tools.FetchForexRate: keys inherited from
  `Object.prototype` (such as "constructor") are not modelled. In the
  source they find a function instead of a missing entry. A status of
  "default" gets the default class either way.
- ChatPage.ToolDisplayName: prototype keys are not modelled, for the same
  reason. The labels are kept code point for code point as the source
  stores them, mis-decoded emoji included.
- The regular-expression splitting of markdown text into segments is not
  modelled. Only the decision made for each segment is:
  - fenced code;
  - inline code;
  - bold;
  - italic.
- React rendering, hooks and effects are not modelled, nor is the theme
  read from localStorage or the system preference. Neither are the
  clipboard, scrolling or the time stamp.
