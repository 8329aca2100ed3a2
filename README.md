# VaraSMS client: request building and validation

A Dafny model of `VaraSMSClient`, the PHP client of the VaraSMS HTTP gateway.
Each public operation of the client checks its arguments in a fixed order,
throws an `InvalidArgumentException` at the first check that fails, and
otherwise builds a single HTTP request and hands it to Guzzle. The request is
a verb, a path, and an ordered JSON body or query string. The model stops at
that request. The network is a parameter `send` that maps a request to a
decoded reply or a transport failure, and `Dispatch.Complete` models the
`try`/`catch` around it.

Modules:

- `Php` (`php.dfy`): the PHP values that go into bodies. Also `array_filter`
  without a callback (drops `null`, `false`, `0`, `0.0`, `""`, `"0"` and `[]`,
  keeps keys and order), keyed lookup and assignment, `empty`, and the index
  where a `foreach` that throws on the first bad element stops.
- `Base64` (`base64.dfy`): `base64_encode` as in section 4 of RFC 4648, its
  decoder, and how section 2 of RFC 7617 reads a Basic credential back.
- `Formats` (`formats.dfy`): the phone pattern `^255\d{9}$`, the time pattern
  `^([01][0-9]|2[0-3]):[0-5][0-9]$`, and `isValidDate`. `isValidDate` is
  `DateTime::createFromFormat('Y-m-d')` followed by `format('Y-m-d')`, with
  PHP's roll-over of out-of-range months and days.
- `Requests` (`requests.dfy`): the request each operation builds, with its
  error messages and paths, as pure functions, plus lemmas about them.
- `Dispatch` (`dispatch.dfy`): the `try`/`catch` that wraps only transport
  failures, and the `array` return type.
- `Client` (`client.dfy`): the class `VaraSMSClient`. Its fields `baseUrl`
  and `client` are set by the constructor. Its operations run the `foreach`
  checking loops. Each method is proved equal to `Complete` applied to the
  request function of the same operation.

The trailing `$` in the PHP regular expressions has no `D` modifier, so it
also matches before one final line feed. The model follows the code:
`IsPhone` and `IsTime` accept one trailing `"\n"`. `PhonePattern`,
`PhoneWithoutLineFeed` and `TimePattern` state both readings.

Where the behaviour described for the library and the code differ, the model
follows the code:

- A reply whose body is not JSON decodes to `null`. Returning `null` from a
  method declared `: array` raises a `TypeError`, which no `catch` handles. So
  the reply does not become a "Failed to …: " error (`NonJsonReplyIsTypeError`).
- Validation errors are thrown inside the `try` but are not
  `GuzzleException`s. They reach the caller unwrapped and without the
  per-operation prefix (`RejectedBeforeSending`).

## Model

| member | source | states |
|---|---|---|
| Php.LookupFinds | src/VaraSMSClient.php:351 | `$a[$k]` is the value of the first entry with key `$k`, and it is missing exactly when no entry has that key |
| Php.PutStores | src/VaraSMSClient.php:369 | after `$a[$k] = $v`, key `$k` reads back `$v` |
| Php.PutLeavesOthers | src/VaraSMSClient.php:369 | assigning one key leaves the value under every other key unchanged |
| Php.PutKeepsKeys | src/VaraSMSClient.php:369 | assigning a key that is already present keeps every key, in the same order |
| Php.ArrayFilter | src/VaraSMSClient.php:67-72 | `array_filter` never lengthens an array |
| Php.FilterMembers | src/VaraSMSClient.php:67-72 | `array_filter` keeps exactly the entries whose value is truthy |
| Php.FilterAppend | src/VaraSMSClient.php:306-314 | filtering two parts joined is joining the filtered parts, so the kept entries keep their order |
| Php.FilterIdempotent | src/VaraSMSClient.php:67-72 | a general property of `array_filter`: filtering an already filtered array changes nothing |
| Php.FilterLookup | src/VaraSMSClient.php:306-314 | with distinct keys, a key is in the filtered array exactly when its value was truthy, and it keeps that value |
| Php.FilterKeepsTruthy | src/VaraSMSClient.php:457-466 | an array whose values are all truthy comes through the filter unchanged |
| Php.FirstWhere | src/VaraSMSClient.php:59-65 | a checking `foreach` stops at the first bad element; it finishes exactly when no element is bad |
| Base64.EncodeLength | src/VaraSMSClient.php:33 | `Encode` (`base64_encode`) of n bytes is 4·⌈n/3⌉ characters long |
| Base64.SymbolIndex | src/VaraSMSClient.php:33 | a character that decodes to a 6-bit value is that value's symbol in the base64 alphabet |
| Base64.SymbolRoundTrip | src/VaraSMSClient.php:33 | every 6-bit value's symbol decodes back to the value |
| Base64.EncodeTestVectors | src/VaraSMSClient.php:33 | `Encode` (`base64_encode`) gives the test vectors of section 10 of RFC 4648, from `""` to `"foobar"`, with one or two `=` for a short last group |
| Base64.DecodeEncode | src/VaraSMSClient.php:33 | decoding `base64_encode(s)` gives back exactly the bytes `s` |
| Base64.SplitUserPass | src/VaraSMSClient.php:33 | a user-pass split at its first colon rejoins to the input, and the user-id part has no colon |
| Base64.SplitJoined | src/VaraSMSClient.php:33 | splitting `user ":" pass` gives back `user` and `pass` when `user` has no colon |
| Base64.BasicAuthorizationRoundTrip | src/VaraSMSClient.php:33 | reading `"Basic " + base64(user:pass)` per RFC 7617 recovers the user-id and the password |
| Formats.DigitValue | src/VaraSMSClient.php:60 | the value of a `\d` is between 0 and 9 |
| Formats.PhonePattern | src/VaraSMSClient.php:60 | `IsPhone`, the pattern `^255\d{9}$` of lines 60, 294, 366, 418 and 506, matches exactly "255" followed by nine ASCII digits, optionally followed by one line feed |
| Formats.PhoneWithoutLineFeed | src/VaraSMSClient.php:294 | for text without a line feed, `IsPhone` matches exactly the 12-character form |
| Formats.TimePattern | src/VaraSMSClient.php:428 | `IsTime`, the time pattern, matches exactly `HH:MM` with HH from 00 to 23 and MM from 00 to 59, optionally followed by one line feed |
| Formats.DaysInMonth | src/VaraSMSClient.php:263 | a month has 28 to 31 days, and 29 exactly for February of a Gregorian leap year |
| Formats.LastDayBefore | src/VaraSMSClient.php:263 | day 0 of a month is the last day of the month before (its day is that month's length), in the year before for January |
| Formats.RollDays | src/VaraSMSClient.php:263 | day `d` of a month is the real date lying `d - 1` days after the first of that month, counted month by month (`DaysFromFirst`); a day past the end of its month lands in a later month, and a day within the month is kept |
| Formats.RollDaysExamples | src/VaraSMSClient.php:263 | 2024-02-30 rolls to 2024-03-01, 2023-12-32 to 2024-01-01, and day 60 of January 2024 to 2024-02-29 |
| Formats.Normalize | src/VaraSMSClient.php:263 | `createFromFormat` always yields a real calendar date, and leaves a date that already exists unchanged |
| Formats.CreateFromFormat | src/VaraSMSClient.php:263 | a successful parse is a real calendar date with a year between -1 and 10197 |
| Formats.Pad2 | src/VaraSMSClient.php:264 | `m` and `d` print two digits that read back as the number |
| Formats.Pad4 | src/VaraSMSClient.php:264 | `Y` prints years 0 to 9999 as four digits that read back as the year |
| Formats.FormatYear | src/VaraSMSClient.php:264 | `Y` prints at least four characters: zero-padded in 0..9999, signed below 0, five digits above 9999 |
| Formats.FormatFields | src/VaraSMSClient.php:264 | a `DDDD-DD-DD` text naming a real date formats back to itself |
| Formats.FieldsOfFormat | src/VaraSMSClient.php:264 | formatting a date of years 0..9999 and reading the fields back gives the date |
| Formats.ValidDateMeaning | src/VaraSMSClient.php:261-266 | `IsValidDate(s)` (`isValidDate`) holds exactly when `s` is `DDDD-DD-DD` and names a real Gregorian date |
| Formats.SpelledDate | src/VaraSMSClient.php:261-266 | a `DDDD-DD-DD` text passes exactly when the date it spells exists |
| Formats.LeapDayExamples | src/VaraSMSClient.php:261-266 | `2024-02-29` and `2000-02-29` pass |
| Formats.NoLeapDayExamples | src/VaraSMSClient.php:261-266 | `2023-02-29` and `1900-02-29` fail |
| Formats.DayOutOfRangeExamples | src/VaraSMSClient.php:261-266 | `2024-02-30` and `2024-04-31` fail |
| Formats.MonthOutOfRangeExamples | src/VaraSMSClient.php:261-266 | months 00 and 13 and a one-digit month fail |
| Requests.PhoneProblem | src/VaraSMSClient.php:59-65 | no exception exactly when every number matches; otherwise the message names the first number that does not |
| Requests.SendSmsRequest | src/VaraSMSClient.php:56-77 | `sendSMS` fails exactly when some recipient fails the phone pattern; otherwise it POSTs the filtered `{from, to, text, reference}`, to the test path exactly when test mode is on |
| Requests.SmsPayloadFields | src/VaraSMSClient.php:67-72 | in `SmsPayload`, each of `from` (`$senderId ?? default`), `to` (in the caller's shape), `text` and `reference` is in the body exactly when truthy, with its value |
| Requests.SendSmsExample | src/VaraSMSClient.php:67-77 | one recipient with sender, text and reference gives the four fields in order on the live path |
| Requests.EmptyRecipientListAccepted | src/VaraSMSClient.php:56-72 | an empty recipient list passes the checks and the body has no `to` |
| Requests.BulkSmsRequest | src/VaraSMSClient.php:99-113 | `sendBulkSMS` always POSTs one unfiltered `messages` list to the live multi path, one filtered item per message, in order |
| Requests.BulkItemFields | src/VaraSMSClient.php:105-110 | in a `BulkItem`, each of `to`, `message`, `from` (`$senderId ?? default`) and `reference` is there exactly when truthy, with its value |
| Requests.BulkIgnoresReferenceAndTestMode | src/VaraSMSClient.php:99-113 | the bulk request does not depend on `$reference` or on test mode, and no item has a `text` key |
| Requests.BalanceIsBareGet | src/VaraSMSClient.php:128-137 | the balance is a GET of the balance path with no body |
| Requests.ResellerTransfersUnchecked | src/VaraSMSClient.php:147-187 | recharge and deduct accept every email and count and send `{email, smscount}` unchanged and unfiltered; they differ only in path |
| Requests.ReportQueries | src/VaraSMSClient.php:195-224 | both report lookups GET the reports path; one sends no query, the other sends only `messageId`, even when it is empty |
| Requests.ReportsByDateRangeRequest | src/VaraSMSClient.php:235-253 | succeeds exactly when both dates are `DDDD-DD-DD` real dates, with the query `{sentSince, sentUntil}` unfiltered |
| Requests.SmsLogsRequest | src/VaraSMSClient.php:286-314 | checks run sentSince, sentUntil, to, limit, and the first failure is thrown with its own message (the date messages, then "Phone number must start with 255…", then "Maximum limit is 500 records"); it succeeds exactly when all four pass, with the filtered seven-key query |
| Requests.LogLimitBoundary | src/VaraSMSClient.php:299-304 | a limit of 500 is accepted, 501 and more are rejected, and negative limits are not rejected |
| Requests.LogQueryDropsFalsy | src/VaraSMSClient.php:306-314 | a zero limit or offset and an empty or `"0"` reference are left out of the query; other values are sent unchanged |
| Requests.LogQueryFilters | src/VaraSMSClient.php:306-314 | in `LogQuery`, `from`, `to`, `sentSince` and `sentUntil` are sent unchanged when set and truthy, and left out otherwise |
| Requests.MissingField | src/VaraSMSClient.php:345-354 | no exception exactly when all seven required fields are non-empty; otherwise it names the first empty one |
| Requests.RegisterSubCustomerRequest | src/VaraSMSClient.php:345-384 | checks run required fields, email, phone (after local-to-international rewriting), account type, price, and the first failure is thrown with its own message; it succeeds exactly when all pass |
| Requests.SubCustomerPayload | src/VaraSMSClient.php:362-384 | the posted data has the caller's keys in the caller's order and values, except that `phone_number` holds the international number |
| Requests.LocalNumberForms | src/VaraSMSClient.php:362-368 | `LocalToInternational`: `0` plus nine digits becomes `255` plus the same digits and then matches; an international number, and any text not starting with `0`, is kept; `0738234345` becomes `255738234345` |
| Requests.AccountTypeMatches | src/VaraSMSClient.php:372-373 | `IsAccountType(v)` holds exactly when `v` is loosely equal (PHP 8 `==`) to one of the two account types |
| Requests.PriceChecks | src/VaraSMSClient.php:378 | `IsPositivePrice` refuses everything but integers and floats (so `true` although `true > 0`), accepts 1 and 0.5, refuses -5 and 0.0 |
| Requests.ZeroPriceIsMissing | src/VaraSMSClient.php:350-354 | a zero `sms_price` is reported as a missing field, not as a non-positive price |
| Requests.RecurrenceProblem | src/VaraSMSClient.php:432-455 | checks run repeat, start date, end date, then their order, and the first failure is reported with its own message; no exception exactly when repeat is allowed, the dates present are valid, and a start and end date both present are in strictly increasing order |
| Requests.ScheduleSmsRequest | src/VaraSMSClient.php:418-470 | checks run phone, date, time, recurrence, and the first failure is thrown with its own message (the recurrence's own one last); success exactly when all pass, posting the filtered eight-key body to the live single path |
| Requests.SameStartAndEndRejected | src/VaraSMSClient.php:447-454 | a recurrence that starts and ends on the same day is rejected with "End date must be after start date" |
| Requests.EmptyRecurrenceChecksNothing | src/VaraSMSClient.php:432-455 | an empty `$recurring` and one with no keys set give the same result |
| Requests.ScheduleMessageFields | src/VaraSMSClient.php:457-466 | in `SchedulePayload`, each of `from`, `to`, `text`, `date` and `time` is there exactly when truthy, with its value |
| Requests.ScheduleRecurrenceFields | src/VaraSMSClient.php:457-466 | in `SchedulePayload`, `repeat`, `start_date` and `end_date` are absent without `$recurring`, and otherwise each is there exactly when set and truthy |
| Requests.ScheduleCarriesDateAndTime | src/VaraSMSClient.php:457-466 | a body built from a valid number, date and time always contains all three |
| Requests.MessageChecks | src/VaraSMSClient.php:495-516 | `MessageProblem`: a missing `to` or `text` gives the structure error; then the first bad number is named; then `""` or `"0"` text gives "Message text cannot be empty"; no problem exactly when all pass |
| Requests.MessagesProblem | src/VaraSMSClient.php:494-517 | no exception exactly when every message passes; otherwise it is the exception of the first message that fails |
| Requests.FormatMessages | src/VaraSMSClient.php:520-526 | the formatted list has one filtered `{from, to, text}` per message, in order |
| Requests.SendMultipleRequest | src/VaraSMSClient.php:494-540 | fails exactly when some message fails its checks; otherwise it POSTs the filtered `{messages, reference}` to the test multi path exactly when test mode is on |
| Requests.MessagePosted | src/VaraSMSClient.php:520-526 | in `FormatMessage`, a message that passed the checks is posted with its text; its recipients and its sender (or the configured default) are there exactly when truthy |
| Requests.MultipleMessagesPosted | src/VaraSMSClient.php:520-531 | on success every message is posted with its text, and an empty list leaves out the `messages` key |
| Dispatch.Complete | src/VaraSMSClient.php:79-87 | a failed check is rethrown as is; a transport failure becomes `Exception(prefix + message)`; a reply that decodes to an array is returned, and any other reply is a `TypeError` |
| Dispatch.RejectedBeforeSending | src/VaraSMSClient.php:84 | when a check fails the outcome does not depend on the transport and carries no prefix |
| Dispatch.TransportFailuresPrefixed | src/VaraSMSClient.php:84-87 | an `Exception` is thrown exactly when the request was built and the exchange failed, and its message is the operation's phrase followed by the transport's message |
| Dispatch.NonJsonReplyIsTypeError | src/VaraSMSClient.php:83 | a reply that is not JSON ends in a `TypeError`, not in a prefixed `Exception` |
| Client.TrimSlashes | src/VaraSMSClient.php:17 | the stored base URL is a prefix of the given one, does not end in `/`, and only slashes were removed |
| Client.TrimSlashesIdempotent | src/VaraSMSClient.php:17 | trimming twice equals trimming once, a URL without a trailing slash is kept, and an extra trailing slash makes no difference |
| Client.Authorization | src/VaraSMSClient.php:24-34 | token mode fails exactly when the token is empty and otherwise sends `"Basic " + token` raw; any other mode fails exactly when the username or password is empty and otherwise sends `"Basic " + Encode(username + ":" + password)`, for every username, colons included |
| Client.BasicCredentialsRecovered | src/VaraSMSClient.php:33 | outside token mode and for a username without a colon, the header read per RFC 7617 gives back the username and password |
| Client.FirstBadNumber | src/VaraSMSClient.php:59-65 | the phone loop throws the exception for the first number that does not match, or none |
| Client.FirstMissingField | src/VaraSMSClient.php:350-354 | the required-field loop throws for the first empty field, or none |
| Client.FirstBadMessage | src/VaraSMSClient.php:494-517 | the message loop throws the first message's exception, checking `to`/`text` presence, then numbers, then empty text |
| Client.VaraSMSClient.Open | src/VaraSMSClient.php:17-40 | the object stores the trimmed base URL and a transport with that base URI and the JSON and `Authorization` headers |
| Client.VaraSMSClient.Create | src/VaraSMSClient.php:15-40 | construction fails exactly when the header cannot be built; otherwise a fresh client holds the trimmed URL and the header |
| Client.VaraSMSClient.SendSms | src/VaraSMSClient.php:52-88 | the outcome is `Complete` applied to the `sendSMS` request |
| Client.VaraSMSClient.SendBulkSms | src/VaraSMSClient.php:99-120 | the outcome is `Complete` applied to the bulk request |
| Client.VaraSMSClient.GetBalance | src/VaraSMSClient.php:128-137 | the outcome is `Complete` applied to the balance request |
| Client.VaraSMSClient.RechargeCustomer | src/VaraSMSClient.php:147-162 | the outcome is `Complete` applied to the recharge request |
| Client.VaraSMSClient.DeductCustomer | src/VaraSMSClient.php:172-187 | the outcome is `Complete` applied to the deduct request |
| Client.VaraSMSClient.GetDeliveryReports | src/VaraSMSClient.php:195-204 | the outcome is `Complete` applied to the all-reports request |
| Client.VaraSMSClient.GetDeliveryReport | src/VaraSMSClient.php:213-224 | the outcome is `Complete` applied to the single-report request |
| Client.VaraSMSClient.GetDeliveryReportsByDateRange | src/VaraSMSClient.php:235-253 | the outcome is `Complete` applied to the date-range request |
| Client.VaraSMSClient.GetSmsLogs | src/VaraSMSClient.php:282-325 | the outcome is `Complete` applied to the logs request |
| Client.VaraSMSClient.RegisterSubCustomer | src/VaraSMSClient.php:341-391 | the outcome is `Complete` applied to the sub-customer request, with the phone number rewritten in place before the later checks |
| Client.VaraSMSClient.ScheduleSms | src/VaraSMSClient.php:408-477 | the outcome is `Complete` applied to the scheduling request |
| Client.VaraSMSClient.SendMultipleMessages | src/VaraSMSClient.php:490-547 | the outcome is `Complete` applied to the multi-message request |

## Left out

- Guzzle, the network and `Log::error` are not modelled. The reply to a request is the parameter `send`.
- `json_decode` is not modelled. A reply is given already decoded, and a body that is not JSON is `Null`.
- The `Accept` and `Content-Type` headers are in the transport's header list. How Guzzle serialises the JSON body or the query string is not modelled.
- `config('varasms.sender_id')` and `config('varasms.test_mode')` are passed in as `Settings`. Reading them from the environment (config/varasms.php) is not part of this model.
- The service provider and the facade are framework wiring and are not part of this model.
- The declared but never assigned `$auth` property is not modelled.
- `filter_var(..., FILTER_VALIDATE_EMAIL)` is the parameter `isEmail`. Its grammar is not modelled.
- `strtotime` and time zones are not modelled. Start and end dates that already passed `isValidDate` are compared in calendar order (`Before`), which is what `strtotime` gives for such dates.
- `Formats.CreateFromFormat` parses only the `DDDD-DD-DD` shape, with a four-digit year. PHP also parses other shapes, such as a one-digit month. None of those shapes can format back to the same text, so `isValidDate` is unaffected.
- Formats.FormatYear: states only the sign and width of years outside 0..9999, not their digits. Such years never format back to a `DDDD-DD-DD` text, so `isValidDate` does not depend on them.
- Requests.RegisterSubCustomerRequest: `sms_price` is an integer or a real. A numeric string such as `"5"`, which `is_numeric` accepts, is rejected in the model.
- Requests.RegisterSubCustomerRequest: a `phone_number` or `email` that is not a string is rejected in the model with that check's `InvalidArgumentException`. PHP would first convert an integer, or a float with an integral value, to a string and check that.
- Requests.RegisterSubCustomerRequest: an array `phone_number` makes `str_starts_with` throw a `TypeError` that no `catch` handles. The model returns the "Phone number must be in the format …" `InvalidArgumentException` instead.
- Requests.SmsLogsRequest: `limit` and `offset` are integers already, so the `(int)` casts of lines 300 and 311-312 are the identity and are left out.
- Requests.BulkSmsRequest: a message without a `to` or `message` key is sent with that field dropped. The PHP warning for the undefined key is not modelled.
- Requests.IsAccountType: `LooselyEquals` gives PHP 8's `==` only against a non-numeric string, which both account types are. The matches are the two literal strings and `true`. Objects are not among the modelled values.
- The `Authorization` value is built from byte strings. PHP's conversion of non-string configuration values when they are interpolated is not modelled.
