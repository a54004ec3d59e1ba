# gofresh core, modelled in Dafny

gofresh is a Go client for the Freshdesk and Freshservice REST APIs. This
project models the parts of it that make decisions, and proves what they
promise:

- **The transport core** (`fresh/fresh.go`, module `Fresh`):
  - how a client builds an endpoint URL;
  - how `authenticate` picks the Content-Type and the credentials;
  - how one attempt of `doCall` classifies the HTTP status, decodes or skips the error body, and sets `RetryAfter`;
  - how `doList` adds the query and reads the `Link` header;
  - how `buildRequest` chooses between no body, a custom body, multipart and JSON;
  - how `addMultipartFiles` and `BuildMultipartRequest` fill a multipart buffer;
  - how downloads accept only status 200.
- **The wire formats of dates and times** (`fresh/time.go`, module `FreshTime`):
  - the full-date and date-time forms of section 5.6 of RFC 3339;
  - output normalised to UTC;
  - the JSON quoting, `null` and empty-input rules, and the "hh:mm" time-spent format.
  
  Dates and times are integer calendar fields with an offset in seconds. A day-number function lets the UTC conversion be proved to keep the instant.
- **The page-iteration protocol** that every `Iter*` function of the Freshdesk and Freshservice clients repeats (module `Paging`):
  - The option object is the class `ListOptions`, with mutable `page` and `perPage` fields.
  - The server is the class `Pager`, whose `script` of replies is consumed one list call at a time.
  - `Pager.Iterate` applies the defaults and runs the loop.
  - Its contract relates the error, the list calls made, the items handed to the callback and the option's final state to the specification function `Walk`.
  
  Each `Iter*` of each file is an instance of it.
- **The URL and query builders** of the Freshdesk client, its copy in the `fdk` package, and the Freshservice client:
  - the option `Values` key sets and their read-back;
  - the comma-joined `?type=` and `?include=` lists;
  - `?force=true`;
  - the query-escaped search terms;
  - the translated solution paths;
  - the portal permalinks and the attachment URLs.

Shared text helpers live in module `Text`:
- Go's `%d` formatting, with a parser as its inverse;
- `strings.Join` and a splitter;
- `url.QueryEscape` over UTF-8, with an unescaper as its inverse.

Module `Wrappers` holds `Option` and `Result`.

Integers that the Go code holds in `int64` are the subset type `Int64`. The one Go multiplication that can wrap, the Retry-After delay, is written out with `Wrap64` in `RetryDelayAsWritten`; the rest of the model uses the saturating `RetryDelay`, as the `Fresh.RetryDelay` line under "## Left out" says. The page counters of the Go `int` option fields are unbounded here (see "## Left out").

## Model

| member | source | states |
|---|---|---|
| Fresh.Wrap64 | fresh/fresh.go:128 | the two's-complement 64-bit value of an integer: congruent to it modulo 2^64, and equal to it when it fits |
| Fresh.Endpoint | fresh/fresh.go:49-51 | the URL is exactly "https://", the domain, "/api/v2" and the path, each at its position |
| Fresh.EndpointInjective | fresh/fresh.go:49-51 | two endpoints of one client are equal only for equal paths |
| Fresh.ShouldRetry | fresh/fresh.go:69-75 | the client's own predicate decides when it is set; only a nil ShouldRetry falls back to the package default |
| Fresh.CallError | fresh/fresh.go:84-88 | a transport failure is wrapped for retry, with the client's RetryAfter, exactly when the predicate accepts it; unwrapped, it is the failure itself |
| Fresh.WithDefaultContentType | fresh/fresh.go:57-60 | the Content-Type becomes the JSON type only when none is set; an existing one and every other header are kept |
| Fresh.Request.constructor | fresh/fresh.go:192 | a new request carries its verb, URL and body, with no query, no header and no credentials |
| Fresh.Authenticate | fresh/fresh.go:57-67 | the header gets the default Content-Type; a non-empty API key gives basic auth (key, "X"); only an empty key falls back to username and password |
| Fresh.RetryDelay | fresh/fresh.go:126-128 | a positive Retry-After gives a positive delay, equal to n seconds whenever that fits in a Duration |
| Fresh.RetryDelayAsWritten | fresh/fresh.go:128 | the written delay is congruent to n seconds modulo 2^64, and equal to it whenever the product fits in an int64 |
| Fresh.RetryDelayOverflow | fresh/fresh.go:128 | n = 9223372037 seconds wraps to a negative Duration as written; the corrected delay saturates instead |
| Fresh.RetryDelayAgrees | fresh/fresh.go:128 | for every n the product can hold, the corrected delay equals the written one: n seconds |
| Fresh.StatusError | fresh/fresh.go:118-132 | a ResultError carrying the status; its detail is the decoded error body except for 404 or an undecodable body; RetryAfter stays zero when the predicate refuses |
| Fresh.Attempt | fresh/fresh.go:103-135 | a response is returned exactly when one was received; no error only for status 200, 201 or 204; the result is decoded exactly on such a status when one is wanted |
| Fresh.StatusClassification | fresh/fresh.go:112-119 | an attempt ends in a ResultError exactly when the status is not 200, 201 or 204, and that error carries the status |
| Fresh.SuccessDecoding | fresh/fresh.go:112-117 | on success the body is decoded exactly when a result is wanted, and the only possible error is that decode's |
| Fresh.ErrorBody | fresh/fresh.go:119-122 | a failure status always returns the error without decoding a result; a 404 body is never read into it, and any other status's body detail is |
| Fresh.RetryAfterRule | fresh/fresh.go:124-132 | RetryAfter stays zero when the predicate refuses; it is n seconds for a header n > 0, and the client default otherwise |
| Fresh.TransportFailure | fresh/fresh.go:105-107 | a transport failure returns no response and no decoding, and its error unwraps to the failure |
| Fresh.DoCall | fresh/fresh.go:93-135 | the request is authenticated as Authenticate states; the outcome is the attempt's classification of the exchange |
| Fresh.DoList | fresh/fresh.go:160-178 | a URL that does not parse is returned at once and nothing is sent; otherwise an authenticated GET (default Content-Type, API key or user credentials) with the option's values as query only for a non-nil option; more pages exactly when there is no error and the Link header is non-empty |
| Fresh.MultipartWriter.constructor | fresh/fresh.go:369-371 | a new writer over its boundary, with no parts and not closed |
| Fresh.MultipartWriter.WriteFields | fresh/fresh.go:329-331 | the values are appended as one part |
| Fresh.MultipartWriter.WriteFile | fresh/fresh.go:335-336 | a readable path appends its file part; an unreadable one returns a file error and writes nothing |
| Fresh.MultipartWriter.WriteFileData | fresh/fresh.go:337-338 | the given bytes are appended as a file part |
| Fresh.MultipartWriter.Close | fresh/fresh.go:380-382 | the writer is closed and its parts stay as they are |
| Fresh.FileParts | fresh/fresh.go:333-345 | specification of the files loop: all files are written when there is no error, and fewer than all when there is one |
| Fresh.FilePartsAllWritten | fresh/fresh.go:333-345 | when every file can be written, the parts are the files' parts in order and there is no error |
| Fresh.FilePartsFirstFailure | fresh/fresh.go:339-341 | the loop stops at the first file that fails, with its error, after writing exactly the files before it |
| Fresh.FilePartsFrom | fresh/fresh.go:333-345 | one turn of the loop: a failing file ends it with its error; a good one is followed by the rest's parts |
| Fresh.AddMultipartFiles | fresh/fresh.go:333-345 | the writer gains exactly the parts of FileParts and returns its error |
| Fresh.MultipartBuilt | fresh/fresh.go:368-385 | the files' error is the result's; an error leaves no body and no type; otherwise the values part, then the files' parts, under the form-data type |
| Fresh.BuildMultipartRequest | fresh/fresh.go:368-385 | fields first, then files; the first file error gives no body and no content type; otherwise a multipart body and its form-data type |
| Fresh.MultipartLayout | fresh/fresh.go:368-385 | with every file readable: one fields part followed by one part per file, in order, and the form-data content type |
| Fresh.BuildJSON | fresh/fresh.go:387-395 | a marshalled value becomes a JSON body with the JSON type; a marshal error gives no body and that error |
| Fresh.RequestBody | fresh/fresh.go:348-366 | nil builds no body and no error; a built-in payload gets no type, the JSON type or the form-data type |
| Fresh.BuildRequest | fresh/fresh.go:348-366 | the built body is RequestBody's dispatch on the payload |
| Fresh.BuildDispatch | fresh/fresh.go:348-366 | nil gives nothing; a custom request decides itself; a form with files is exactly BuildMultipartRequest's result; a form without files is sent as JSON |
| Fresh.BuiltShape | fresh/fresh.go:348-395 | for a built-in payload, an error comes with no body and no type, and a body always has a type |
| Fresh.DoSend | fresh/fresh.go:186-224 | a build error, then a URL that does not parse, is returned without sending; otherwise the authenticated request carries the body and the built type, or JSON when the type is empty, and the outcome is the attempt's |
| Fresh.CopyResponse | fresh/fresh.go:397-407 | only status 200 yields content; any other status is a ResultError with that status |
| Fresh.SaveResponse | fresh/fresh.go:409-422 | the body is copied to the path exactly when the status is 200, with an error exactly when reading the body fails; otherwise a ResultError with that status |
| Fresh.DoDownload | fresh/fresh.go:249-303 | a URL that does not parse is returned before sending; otherwise a GET that, when authenticated, has the default Content-Type and the API key or user credentials, and otherwise no header and no credentials; a transport failure is the call error, a response is CopyResponse's |
| Fresh.DownloadOnlyOK | fresh/fresh.go:291-303 | a download succeeds exactly when a response arrived with status 200 and was read without error |
| Fresh.IdPathReadBack | freshdesk/solutions.go:39 | a path with an id formatted by %d keeps its prefix and suffix, and the id parses back from between them |
| Fresh.IdPathChars | freshdesk/solutions.go:39 | formatting an id adds only digits and '-' |
| Fresh.TranslatedPath | freshdesk/solutions.go:48 | the endpoint of a translated path is the untranslated endpoint followed by "/" and the language |
| Fresh.IdPathInjective | freshdesk/contacts.go:149-155 | two id paths with '/'-led suffixes agree only for the same id and suffix |
| Fresh.NoQueryMark | freshdesk/ticket_fields.go:17 | an endpoint has no '?' unless its domain or path has one |
| Fresh.EscapedParam | freshdesk/solutions.go:474 | a query-escaped parameter after a fixed endpoint unescapes back to the text's UTF-8 bytes |
| Text.Decimal | freshdesk/solutions.go:39 | the %d text of a natural number: non-empty digits, whose value is the number, with no leading zero |
| Text.PadDecimal | fresh/time.go:12 | zero-padded text of a number: digits with that value, of the given width when the number fits |
| Text.FixedWidthRoundTrip | fresh/time.go:12 | padding a digit string's value to its own width gives it back |
| Text.FormatInt | freshdesk/solutions.go:39 | %d of an int64, which parses back to the same integer and holds only digits and '-' |
| Text.FormatIntInjective | freshdesk/solutions.go:39 | different integers format differently |
| Text.IdSegmentInjective | freshdesk/solutions.go:39 | two URLs differing only in a formatted id are equal only for equal ids |
| Text.LeadingIdInjective | freshdesk/automations.go:47 | a formatted id followed by a '/'-led suffix determines both |
| Text.IndexOfAppend | freshdesk/ticket_fields.go:20 | the first '?' of url + "?..." is just after the url when the url has none |
| Text.SplitAtFirst | freshdesk/ticket_fields.go:19 | splitting a + sep + rest, with no sep in a, gives a and then the split of rest |
| Text.SplitJoin | freshdesk/ticket_fields.go:19 | splitting a comma-joined list whose items hold no comma gives the list back |
| Text.Utf8 | freshdesk/solutions.go:474 | the UTF-8 encoding of a character: one to four bytes, ASCII as itself |
| Text.PercentEncode | freshdesk/solutions.go:474 | each byte becomes three query-safe characters |
| Text.EscapeChar | freshdesk/solutions.go:474 | one escaped character is query-safe |
| Text.QueryEscape | freshdesk/solutions.go:474 | the escaped text is query-safe: no '&', '=', '#' or space |
| Text.UnescapePercent | freshdesk/solutions.go:474 | unescaping percent-encoded bytes gives those bytes back, followed by the rest |
| Text.UnescapeChar | freshdesk/solutions.go:474 | unescaping an escaped character gives its UTF-8 bytes back |
| Text.QueryEscapeRoundTrip | freshdesk/solutions.go:474 | unescaping the escaped text gives its UTF-8 bytes |
| Text.Utf8Decodes | freshdesk/solutions.go:474 | a character's encoding announces its length in its lead byte and decodes back to the character |
| Text.Utf8Injective | freshdesk/solutions.go:474 | different characters have different UTF-8 encodings |
| Text.Utf8StringInjective | freshdesk/solutions.go:474 | different texts have different UTF-8 encodings |
| Text.QueryEscapeInjective | freshdesk/solutions.go:474 | different texts have different query-escaped forms, so the escaped search term determines the term |
| FreshTime.NextDayNumber | fresh/time.go:68-70 | the next day is a valid date whose day number is one more |
| FreshTime.PrevDayNumber | fresh/time.go:68-70 | the previous day is a valid date whose day number is one less |
| FreshTime.AddDaysNumber | fresh/time.go:68-70 | moving k days gives a valid date k day numbers on |
| FreshTime.ClockSplit | fresh/time.go:68-70 | seconds of a day split into hours, minutes and seconds that add back up |
| FreshTime.ToUTC | fresh/time.go:68-70 | the UTC form of a time is a valid time with offset zero at the same instant |
| FreshTime.ToUTCIdentity | fresh/time.go:68-70 | a UTC time is its own UTC form |
| FreshTime.TimeString | fresh/time.go:68-70 | the text of a time is its UTC RFC 3339 form, ending in 'Z' |
| FreshTime.DateString | fresh/time.go:28-30 | a date with a four-digit year is ten characters with '-' at positions 4 and 7; DateFields reads it back (DateFormatParse) |
| FreshTime.ClockString | fresh/time.go:68-70 | eight characters with ':' at positions 2 and 5; ClockFields reads the fields back |
| FreshTime.DateFields | fresh/time.go:20-26 | what YYYY-MM-DD text reads as: a valid date |
| FreshTime.TimeFields | fresh/time.go:60-66 | what RFC 3339 text reads as: a valid time |
| FreshTime.ParseDate | fresh/time.go:20-26 | a date when the text is YYYY-MM-DD; otherwise the zero date with an error |
| FreshTime.ParseTime | fresh/time.go:60-66 | an RFC 3339 time, or else a date at midnight UTC; otherwise the zero time with an error |
| FreshTime.YearTextNat | fresh/time.go:12 | four year digits format back to themselves |
| FreshTime.Pad2RoundTrip | fresh/time.go:13 | two digits format back to themselves |
| FreshTime.DateParseFormat | fresh/time.go:28-30 | a date that parsed formats back to the identical text |
| FreshTime.Pad2Fields | fresh/time.go:13 | two-digit fields read back as their value |
| FreshTime.DateFormatParse | fresh/time.go:20-30 | a formatted date parses back to itself |
| FreshTime.ClockParseFormat | fresh/time.go:60-70 | a parsed time's clock formats back to the text's clock |
| FreshTime.TimeParseFormatUTC | fresh/time.go:60-70 | a UTC timestamp that parsed formats back to the identical text |
| FreshTime.ClockFields | fresh/time.go:68-70 | the clock text holds its hour, minute and second in fixed places |
| FreshTime.OffsetFormatParse | fresh/time.go:13 | a numeric offset reads back as its signed seconds |
| FreshTime.FormatParse | fresh/time.go:60-66 | a time written with its offset parses back to itself |
| FreshTime.TimeFormatParse | fresh/time.go:60-70 | the text of any time parses to its UTC form, at the same instant |
| FreshTime.UnmarshalDateAsWritten | fresh/time.go:40-54 | Date.UnmarshalJSON as written, which panics exactly on the one-byte text `"` |
| FreshTime.UnmarshalTimeAsWritten | fresh/time.go:80-94 | Time.UnmarshalJSON as written, which panics exactly on `"` |
| FreshTime.UnmarshalDate | fresh/time.go:40-54 | empty and "null" are ignored; unquoted text is rejected before assignment; otherwise the parse is assigned, zero on error; agrees with the written code except on `"` |
| FreshTime.UnmarshalTime | fresh/time.go:80-94 | only "null" is ignored, so empty input is rejected; otherwise as for dates |
| FreshTime.LoneQuoteFinding | fresh/time.go:48-52 | `"` passes both quote checks and panics as written; the corrected decoders reject it |
| FreshTime.DateJsonRoundTrip | fresh/time.go:32-54 | unmarshalling what Date.MarshalJSON wrote assigns the same date without error |
| FreshTime.MarshalDate | fresh/time.go:32-38 | the date's text between two double quotes |
| FreshTime.MarshalTime | fresh/time.go:72-78 | the UTC timestamp text between two double quotes |
| FreshTime.TimeJsonRoundTrip | fresh/time.go:72-94 | unmarshalling what Time.MarshalJSON wrote assigns its UTC form without error |
| FreshTime.JsonDate.constructor | fresh/time.go:16-18 | a Date receiver holding the given date |
| FreshTime.JsonDate.UnmarshalJSON | fresh/time.go:40-54 | the receiver is kept when the input is ignored or rejected, and is overwritten by the parse otherwise |
| FreshTime.JsonTime.constructor | fresh/time.go:56-58 | a Time receiver holding the given time |
| FreshTime.JsonTime.UnmarshalJSON | fresh/time.go:80-94 | the receiver is kept when the input is ignored or rejected, and is overwritten by the parse otherwise |
| FreshTime.ParseTimeSpent | fresh/time.go:98-100 | a successful parse is a non-negative number of minutes |
| FreshTime.TimeSpentMinutes | fresh/time.go:98-100 | a plain number is that many minutes |
| FreshTime.TimeSpentClock | fresh/time.go:98-100 | "hh:mm" is 60 h + m minutes |
| FreshTime.DateExample | fresh/time_test.go:14 | "2023-03-02" parses and formats back to "2023-03-02" |
| FreshTime.ExampleFields | fresh/time_test.go:12 | the fields of 2020-01-02 format as "2020", "01", "02" |
| FreshTime.ExampleDates | fresh/time_test.go:36 | the dates of the timestamp test format as expected |
| FreshTime.ExampleClocks | fresh/time_test.go:36 | the clocks and offset of the timestamp test format as expected |
| FreshTime.ExampleTexts | fresh/time_test.go:36 | the whole timestamps of the test format as expected |
| FreshTime.ExampleUTC | fresh/time_test.go:36 | 03:04:05 at +08:00 on 2020-01-02 is 19:04:05 UTC on 2020-01-01 |
| FreshTime.TimeExample | fresh/time_test.go:36 | "2020-01-02T03:04:05+08:00" parses and renders as "2020-01-01T19:04:05Z" |
| FreshTime.TimeSpentExamples | fresh/time_test.go:57-59 | "09:00" is 540, "08:00" is 480 and "360" is 360 minutes |
| Paging.ListOptions.constructor | freshdesk/solutions.go:78-80 | a fresh option is zero-valued: zero page and page size, the zero filter |
| Paging.QueryOf | fresh/fresh.go:166-169 | a list call sends a query exactly when the option is not nil |
| Paging.MapSeq | freshservice/solutions.go:248-252 | every item normalized, in place and in order |
| Paging.VisitAllShape | freshdesk/solutions.go:93-97 | the callback sees the whole page when it refuses nothing; otherwise a prefix ending at the item it refused, whose error is returned |
| Paging.VisitAllUpTo | freshdesk/solutions.go:93-97 | the callbacks of a page are fixed by the first item the callback refuses |
| Paging.Walk | freshdesk/solutions.go:88-103 | specification of the loop: it lists at most the pages the server has, and at least one when it ends |
| Paging.PageCalls | freshdesk/solutions.go:98-103 | the list calls of an iteration, one per page |
| Paging.PageCallsAt | freshdesk/solutions.go:98-103 | the i-th call asks for page first + i with the same URL, filter and page size as every other |
| Paging.WalkInOrder | freshdesk/companies.go:47-56 | items reach the callback in page order, then in-page order, and every item before the last was accepted |
| Paging.WalkContinued | freshdesk/solutions.go:98-103 | every page before the last was listed without error and had a next page |
| Paging.WalkSuccess | freshdesk/solutions.go:98-100 | an iteration ending without error stops at the first page with no next page, and visits every item of every page in order |
| Paging.WalkFailure | freshdesk/solutions.go:89-97 | an iteration's error is the last page's list error or the callback's error on the last item visited, and it stops at once |
| Paging.NormalizeEach | freshservice/solutions.go:248-252 | every element of the array is replaced by its normalized form |
| Paging.PageCallsNext | freshdesk/solutions.go:102 | one more page adds one call for the next page |
| Paging.WalkTurn | freshdesk/solutions.go:88-103 | one turn of the loop: a list error or callback error or the last page ends it; otherwise the rest of the walk follows |
| Paging.Pager.constructor | freshdesk/solutions.go:70-75 | a server with its replies, none served, no calls and nothing visited |
| Paging.Pager.List | fresh/fresh.go:160-178 | one list call: records the URL and query, and returns the next reply's items (normalized when the list normalizes), next flag and error |
| Paging.Pager.VisitPage | freshdesk/solutions.go:93-97 | the callback is applied to the page's items in order up to the first error |
| Paging.Pager.Pin | freshservice/solutions.go:164 | the option's filter is overwritten with the pinned id when there is one |
| Paging.Pager.Step | freshdesk/solutions.go:88-103 | one turn keeps the loop invariant when the loop continues, and otherwise leaves the walk's error, calls, items and page |
| Paging.Pager.Loop | freshdesk/solutions.go:88-104 | the loop's error, calls, visited items and final page are those of Walk over the remaining replies, with the page size unchanged |
| Paging.Pager.Iterate | freshdesk/solutions.go:77-104 | nil becomes a fresh option, Page below 1 becomes 1 and PerPage below 1 becomes 100, then the loop runs as Walk states, leaving the option on the last page listed |
| FreshdeskAutomations.AutomationRuleURL | freshdesk/automations.go:47 | the rule URL is the rules URL followed by "/" and the rule id |
| FreshdeskAutomations.AutomationRuleInjective | freshdesk/automations.go:47 | equal rule URLs mean equal type and rule id |
| FreshdeskAutomations.IterAutomationRules | freshdesk/automations.go:17-44 | the iteration over "/automations/<type>/rules", as Pager.Iterate states |
| FreshdeskClient.FilterValues | freshdesk/freshdesk.go:66-71 | the query has exactly the keys query and page |
| FreshdeskClient.FilterListArg | freshdesk/freshdesk.go:62-71 | IsNil only for nil; otherwise the values read back as the option, with no per_page |
| FreshdeskClient.DeleteAttachmentURL | freshdesk/freshdesk.go:135-138 | the endpoint "/attachments/" followed by the id, which reads back |
| FreshdeskClient.AgentTicketURL | freshdesk/freshdesk.go:164-166 | "https://" + domain + "/a/tickets/" followed by the ticket id, which reads back |
| FreshdeskClient.SolutionArticleURL | freshdesk/freshdesk.go:169-171 | "https://" + domain + "/support/solutions/articles/" followed by the id, which reads back |
| FreshdeskClient.HelpdeskAttachmentURL | freshdesk/freshdesk.go:174-176 | "https://" + domain + "/helpdesk/attachments/" followed by the id, which reads back |
| FreshdeskClient.SectionMarks | freshdesk/freshdesk.go:164-176 | the characters after the domain tell the three portal sections apart |
| FreshdeskClient.PermalinksDistinct | freshdesk/freshdesk.go:164-176 | the three permalinks of one domain never coincide |
| FreshdeskClient.PortalOutsideAPI | freshdesk/freshdesk.go:164-176 | a portal link whose section does not begin "/ap" is no API endpoint |
| FreshdeskClient.PermalinksOutsideAPI | freshdesk/freshdesk.go:164-176 | no permalink is an API endpoint of a client on the same domain |
| FreshdeskClient.ClientAgentTicketURL | freshdesk/freshdesk.go:149-151 | the client's link is "https://" + its domain + "/a/tickets/" followed by the ticket id, which reads back |
| FreshdeskClient.ClientSolutionArticleURL | freshdesk/freshdesk.go:154-156 | the client's link is "https://" + its domain + "/support/solutions/articles/" followed by the article id, which reads back |
| FreshdeskClient.ClientHelpdeskAttachmentURL | freshdesk/freshdesk.go:159-161 | the client's link is "https://" + its domain + "/helpdesk/attachments/" followed by the attachment id, which reads back |
| FreshdeskCompanies.IterCompanies | freshdesk/companies.go:36-63 | the iteration over "/companies", as Pager.Iterate states |
| FreshdeskCompanies.SearchCompaniesURL | freshdesk/companies.go:71 | the name, query-escaped after "/companies/autocomplete?name=", unescapes back |
| FreshdeskContacts.ContactValues | freshdesk/contacts.go:36-48 | the query has exactly the nine keys of the filter, the page and the page size |
| FreshdeskContacts.ContactsListArg | freshdesk/contacts.go:32-48 | IsNil only for nil; otherwise the values read back as the option |
| FreshdeskContacts.IterContacts | freshdesk/contacts.go:102-129 | the iteration over "/contacts", with the zero filter for a nil option, as Pager.Iterate states |
| FreshdeskContacts.HardDeleteContactURL | freshdesk/contacts.go:87-92 | the hard-delete endpoint of the contact, possibly followed by a query |
| FreshdeskContacts.HardDeleteForce | freshdesk/contacts.go:87-92 | "?force=true" is appended exactly when a first force argument is given and true |
| FreshdeskContacts.HardDeleteIdReadBack | freshdesk/contacts.go:87-88 | the URL starts with Endpoint("/contacts/") followed by the contact id, which reads back |
| FreshdeskContacts.HardDeleteContactInjective | freshdesk/contacts.go:88 | equal hard-delete URLs mean equal contacts |
| FreshdeskContacts.SearchContactsURL | freshdesk/contacts.go:132 | the keyword, query-escaped after "/contacts/autocomplete?term=", unescapes back |
| FreshdeskContacts.RestoreContact | freshdesk/contacts.go:148-151 | a PUT with no body and no result |
| FreshdeskContacts.InviteContact | freshdesk/contacts.go:153-156 | a PUT with no body and no result |
| FreshdeskContacts.ContactActionsDistinct | freshdesk/contacts.go:149-154 | restore and invite URLs never coincide, and each determines its contact |
| FreshdeskContacts.MergeContactsAsWritten | freshdesk/contacts.go:158-161 | MergeContacts as written: a POST to the merge endpoint with no body and no result |
| FreshdeskContacts.MergeArgumentIgnored | freshdesk/contacts.go:160 | two different merge requests send the same request as written |
| FreshdeskContacts.MergeContacts | freshdesk/contacts.go:158-161 | the POST to "/contacts/merge" with the merge request as its JSON body |
| FreshdeskContacts.MergeSendsArgument | freshdesk/contacts.go:158-161 | different merge requests send different bodies |
| FreshdeskGroups.IterGroups | freshdesk/groups.go:33-60 | the iteration over "/groups", as Pager.Iterate states |
| FreshdeskProducts.IterProducts | freshdesk/products.go:24-51 | the iteration over "/products", as Pager.Iterate states |
| FreshdeskRoles.IterRoles | freshdesk/roles.go:24-51 | the iteration over "/roles", as Pager.Iterate states |
| FreshdeskSolutions.CategoryTranslatedURL | freshdesk/solutions.go:64 | the category's URL followed by "/" and the language |
| FreshdeskSolutions.FolderTranslatedURL | freshdesk/solutions.go:191 | the folder's URL followed by "/" and the language |
| FreshdeskSolutions.ArticleTranslatedURL | freshdesk/solutions.go:390 | the article's URL followed by "/" and the language |
| FreshdeskSolutions.CategoryFoldersTranslatedURL | freshdesk/solutions.go:234 | the category's folder list followed by "/" and the language |
| FreshdeskSolutions.SubFoldersTranslatedURL | freshdesk/solutions.go:306 | the folder's subfolder list followed by "/" and the language |
| FreshdeskSolutions.FolderArticlesTranslatedURL | freshdesk/solutions.go:433 | the folder's article list followed by "/" and the language |
| FreshdeskSolutions.FolderArticlesTranslatedURLAsWritten | freshdesk/solutions.go:433 | the written URL is the folder's "farticles" list followed by "/" and the language |
| FreshdeskSolutions.FolderArticlesSegmentFinding | freshdesk/solutions.go:433 | the URL as written, with "farticles", is not the folder's article list followed by the language |
| FreshdeskSolutions.CategoriesTranslatedURL | freshdesk/solutions.go:107 | the categories endpoint followed by "/" and the language |
| FreshdeskSolutions.CategoriesTranslatedURLAsWritten | freshdesk/solutions.go:107 | the written URL is the translated categories endpoint with its "https://" removed |
| FreshdeskSolutions.SchemeDropped | freshdesk/solutions.go:107 | the URL as written is the endpoint without its leading "https://" |
| FreshdeskSolutions.CategoriesTranslatedSchemeFinding | freshdesk/solutions.go:107 | the URL as written lacks the "https://" of the endpoint, and differs from it |
| FreshdeskSolutions.SearchArticlesURL | freshdesk/solutions.go:474 | the keyword, query-escaped after "/search/solutions?term=", unescapes back |
| FreshdeskSolutions.IterCategories | freshdesk/solutions.go:77-104 | the iteration over the categories, as Pager.Iterate states |
| FreshdeskSolutions.IterCategoriesTranslated | freshdesk/solutions.go:113-140 | the iteration over the translated categories, at the corrected URL |
| FreshdeskSolutions.IterCategoryFolders | freshdesk/solutions.go:204-231 | the iteration over a category's folders |
| FreshdeskSolutions.IterCategoryFoldersTranslated | freshdesk/solutions.go:240-267 | the iteration over a category's translated folders |
| FreshdeskSolutions.IterSubFolders | freshdesk/solutions.go:276-303 | the iteration over a folder's subfolders |
| FreshdeskSolutions.IterSubFoldersTranslated | freshdesk/solutions.go:312-339 | the iteration over a folder's translated subfolders |
| FreshdeskSolutions.IterFolderArticles | freshdesk/solutions.go:403-430 | the iteration over a folder's articles |
| FreshdeskSolutions.IterFolderArticlesTranslated | freshdesk/solutions.go:439-466 | the iteration over a folder's translated articles, at the corrected URL |
| FreshdeskTicketFields.WithList | freshdesk/ticket_fields.go:18-21 | the URL is kept exactly when the list is empty, and is otherwise extended |
| FreshdeskTicketFields.WithListRoundTrip | freshdesk/ticket_fields.go:18-21 | a query appears exactly for a non-empty list; it is name= followed by the items, which split back in order when none holds a comma |
| FreshdeskTicketFields.ListTicketFieldsURL | freshdesk/ticket_fields.go:16-21 | the field list's endpoint, unchanged exactly when no types are given |
| FreshdeskTicketFields.ListTicketFieldsTypes | freshdesk/ticket_fields.go:18-21 | "?type=" followed by the types, which split back in order |
| FreshdeskTicketFields.TicketFieldURL | freshdesk/ticket_fields.go:52 | "/admin/ticket_fields/" followed by the field id, which reads back |
| FreshdeskTicketFields.TicketFieldInjective | freshdesk/ticket_fields.go:61 | equal field URLs mean equal fields |
| FreshdeskTicketFields.TicketFieldNoQuery | freshdesk/ticket_fields.go:52 | a field's URL has no query |
| FreshdeskTicketFields.GetTicketFieldURL | freshdesk/ticket_fields.go:40-44 | the field's URL, unchanged exactly when nothing is included |
| FreshdeskTicketFields.GetTicketFieldIncludes | freshdesk/ticket_fields.go:41-44 | "?include=" followed by the includes, which split back in order |
| FdkTicketFields.ListTicketFieldsURL | fdk/freshdesk/ticket_fields.go:16-21 | unchanged without types; otherwise "?type=" followed by the types, which split back in order |
| FdkTicketFields.TicketFieldURL | fdk/freshdesk/ticket_fields.go:52 | "/admin/ticket_fields/" followed by the field id, which reads back |
| FdkTicketFields.GetTicketFieldURL | fdk/freshdesk/ticket_fields.go:39-44 | unchanged without includes; otherwise "?include=" followed by the includes, which split back in order |
| FreshserviceClient.FilterValues | freshservice/freshservice.go:43-49 | the query has exactly the keys query, page and per_page |
| FreshserviceClient.FilterListArg | freshservice/freshservice.go:39-49 | IsNil only for nil; otherwise the values read back as the option |
| FreshserviceClient.AttachmentURL | freshservice/freshservice.go:124-137 | "/attachments/" followed by the id, which reads back |
| FreshserviceClient.AttachmentInjective | freshservice/freshservice.go:125 | equal attachment URLs mean equal attachments |
| FreshserviceClient.AgentTicketURL | freshservice/freshservice.go:161-163 | the same link as Freshdesk's, and the ticket id reads back from it |
| FreshserviceClient.SolutionArticleURL | freshservice/freshservice.go:166-168 | the same link as Freshdesk's, and the article id reads back from it |
| FreshserviceClient.HelpdeskAttachmentURL | freshservice/freshservice.go:171-173 | the same link as Freshdesk's, and the attachment id reads back from it |
| FreshserviceClient.PermalinksDistinct | freshservice/freshservice.go:161-173 | the three permalinks never coincide, and none is an API endpoint |
| FreshserviceClient.ClientAgentTicketURL | freshservice/freshservice.go:146-148 | the client's link is "https://" + its domain + "/a/tickets/" followed by the ticket id, which reads back |
| FreshserviceClient.ClientSolutionArticleURL | freshservice/freshservice.go:151-153 | the client's link is "https://" + its domain + "/support/solutions/articles/" followed by the article id, which reads back |
| FreshserviceClient.ClientHelpdeskAttachmentURL | freshservice/freshservice.go:156-158 | the client's link is "https://" + its domain + "/helpdesk/attachments/" followed by the attachment id, which reads back |
| FreshserviceSolutions.FoldersValues | freshservice/solutions.go:22-28 | the query has exactly the keys category_id, page and per_page |
| FreshserviceSolutions.FoldersListArg | freshservice/solutions.go:18-28 | IsNil only for nil; otherwise the values read back as the option |
| FreshserviceSolutions.ArticlesValues | freshservice/solutions.go:41-47 | the query has exactly the keys folder_id, page and per_page |
| FreshserviceSolutions.ArticlesListArg | freshservice/solutions.go:37-47 | IsNil only for nil; otherwise the values read back as the option |
| FreshserviceSolutions.SearchValues | freshservice/solutions.go:60-67 | the query has exactly the keys search_term, user_email, page and per_page |
| FreshserviceSolutions.SearchListArg | freshservice/solutions.go:56-67 | IsNil only for nil; otherwise the values read back as the option |
| FreshserviceSolutions.ListCategoryFolders | freshservice/solutions.go:160-170 | nil becomes a fresh option; the category id is written into the option the caller keeps; one list call with that id and the option's page |
| FreshserviceSolutions.ListFolderArticles | freshservice/solutions.go:240-253 | as for folders with the folder id, and every returned article is normalized, even alongside an error |
| FreshserviceSolutions.SearchArticles | freshservice/solutions.go:289-297 | one list call with the option as given, and every returned article normalized, even alongside an error |
| FreshserviceSolutions.IterCategories | freshservice/solutions.go:101-128 | the iteration over the categories, as Pager.Iterate states |
| FreshserviceSolutions.IterCategoryFolders | freshservice/solutions.go:172-199 | the iteration over a category's folders, with every call carrying the category id |
| FreshserviceSolutions.IterFolderArticles | freshservice/solutions.go:255-282 | the iteration over a folder's articles, with every call carrying the folder id and every article normalized |
| FreshserviceAgentGroups.IterAgentGroups | freshservice/agent_groups.go:33-60 | the iteration over "/groups", from a zero option for nil, as Pager.Iterate states |
| FreshserviceAgentRoles.IterAgentRoles | freshservice/agent_roles.go:24-51 | the iteration over "/roles", as Pager.Iterate states |
| FreshserviceWorkspaces.IterWorkspaces | freshservice/workspaces.go:24-51 | the iteration over "/workspaces", as Pager.Iterate states |

## Left out

- The HTTP round trip (the http.Client, its transport, timeouts, request tracing) is not modelled. Each attempt takes the exchange's outcome as an input: a transport failure or a response record.
- The retry loop around each call is not modelled. It sleeps and watches a context, and it lives in another library. Only the decision of one attempt is modelled.
- The package's default retry predicate is not shown. Both it and the client's own predicate are parameters.
- `num.Atoi` on the Retry-After header is a parameter.
- JSON marshalling and unmarshalling are inputs to the model:
  - the marshalled bytes or error of a payload;
  - whether the result decoded;
  - the detail decoded from an error body.
- The multipart writer's encoding is not modelled. The writer records the parts in order, as values.
- The file system used by saveResponse is not modelled. Files a writer can read are a map from path to bytes, and a save is the returned record of path and content.
- Draining and closing response bodies are not modelled.
- Logging and `jsonx.Prettify` are not modelled.
- `Values.SetString`, `SetInt`, `SetInt64` and `SetTime` are not shown. A query is a map from key to value, and no zero value is skipped.
- `Values.Encode` is left out.
- The forwarding wrappers of the Freshdesk and Freshservice clients only delegate. So do the field-definition CRUD wrappers with constant paths.
- Paging.Pager and the `Iter*` instances: the server is a finite script of replies. Every instance requires that the script holds a reply ending the iteration. The Go loop has no bound, so an iteration against a server that always reports a next page is not modelled.
- Paging.Pager.Iterate, for Freshservice's ListCategoryFolders and ListFolderArticles: the id is written through the same option before every call, as the Go functions do.
- FreshdeskSolutions.IterCategoriesTranslated and FreshdeskSolutions.IterFolderArticlesTranslated list at the corrected URLs. The URLs as written are kept beside them (see Findings).
- FreshTime.ParseTime accepts the strict RFC 3339 grammar:
  - no fractional seconds;
  - two-digit fields only;
  - offsets of at most 24 hours and 60 minutes, as Go bounds them.
  
  Go's `time` package is more lenient in corner cases that this does not cover.
- FreshTime.ParseTimeSpent takes "h:m", with any digit counts, or a plain number of minutes. Its partner lemmas cover padded two-digit fields.
- FreshTime.TimeJsonRoundTrip and FreshTime.DateJsonRoundTrip require years 0 to 9999. Those are the years the four-digit format can write.
- FreshdeskTicketFields.WithListRoundTrip: the list items are not escaped. The split-back therefore holds only when no item contains a comma, and the domain has no '?'.
- Fresh.DoCall: the request's `Content-Type` and credentials are set on the request object. Header keys are exact strings, with no canonicalisation.
- Fresh.DoList, Fresh.DoSend and Fresh.DoDownload take the outcome of url.Parse on their URL as an input (`urlParse`). Which texts fail to parse is not modelled.
- Text.QueryEscape and Fresh.EscapedParam take Dafny strings of characters, which are UTF-8 encoded before escaping. Go strings are byte strings, so a keyword or language holding invalid UTF-8 is escaped byte by byte there; that case is not modelled.
- Paging.Pager.Iterate, Paging.Walk and Paging.VisitAll take the callback as a pure function of the item. The Go callbacks are closures that may keep state, so a callback that refuses its k-th call, or answers two equal items differently, is not modelled.
- Paging.Pager.Iterate, Paging.Pager.Step and Paging.Pager.Loop: Page and PerPage are unbounded integers. The Go fields are machine `int`s, and `Page++` wrapping around at the int maximum is not modelled; Paging.PageCalls and the final page `first + pages - 1` assume it never does.
- Fresh.RetryDelay: the Go product `time.Second * time.Duration(n)` wraps around in 64 bits. The model corrects it by saturating (see Findings).

## Findings

| source | as written | input that shows it | evidently intended | confidence | as-written member | corrected member |
|---|---|---|---|---|---|---|
| fresh/time.go:48-52 | `"` passes both the starts-with and the ends-with check, and `js[1:len(js)-1]` is `js[1:0]`, which panics | the one-byte JSON text `"` | reject it as unquoted, like any other malformed input | not executed; high | FreshTime.UnmarshalDateAsWritten, FreshTime.UnmarshalTimeAsWritten, FreshTime.LoneQuoteFinding | FreshTime.UnmarshalDate, FreshTime.UnmarshalTime |
| freshdesk/solutions.go:107 | the URL is the domain followed by "/api/v2/solutions/categories/" and the language, with no "https://" | any domain, say "x.freshdesk.com", with lang "fr" | Endpoint("/solutions/categories/" + lang), as every other translated path is built | not executed; high | FreshdeskSolutions.CategoriesTranslatedURLAsWritten, FreshdeskSolutions.CategoriesTranslatedSchemeFinding | FreshdeskSolutions.CategoriesTranslatedURL |
| fresh/fresh.go:128 | `time.Second * time.Duration(n)` overflows int64 for n above 9223372036 and wraps to a negative delay | a Retry-After header of "9223372037" | a delay of at least n seconds, saturating at the largest Duration | not executed; medium | Fresh.RetryDelayAsWritten, Fresh.RetryDelayOverflow | Fresh.RetryDelay, Fresh.RetryDelayAgrees |
| freshdesk/contacts.go:158-161 | MergeContacts posts a nil body, so its argument is never sent | any two different merge requests | post the merge request as the JSON body | not executed; high | FreshdeskContacts.MergeContactsAsWritten, FreshdeskContacts.MergeArgumentIgnored | FreshdeskContacts.MergeContacts, FreshdeskContacts.MergeSendsArgument |
| freshdesk/solutions.go:433 | the translated article list of a folder uses the path segment "farticles" | any folder id and language | "articles", as the untranslated list at freshdesk/solutions.go:397 | not executed; medium | FreshdeskSolutions.FolderArticlesTranslatedURLAsWritten, FreshdeskSolutions.FolderArticlesSegmentFinding | FreshdeskSolutions.FolderArticlesTranslatedURL |
