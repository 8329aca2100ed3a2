/** The request each operation of `VaraSMSClient` builds, and the checks it
    makes first. A check that fails gives the `InvalidArgumentException` the
    operation throws; otherwise the result is the verb, path and body (or
    query) handed to the HTTP client. */
module Requests {
  import opened Php
  import opened Formats

  datatype Verb = GET | POST

  /** What goes with a request: nothing, a JSON body, or a query string, each
      an ordered list of keys and values. */
  datatype Body = NoBody | Json(payload: seq<Entry>) | Query(params: seq<Entry>)

  datatype Request = Request(verb: Verb, path: string, body: Body)

  /** An `InvalidArgumentException` with its message. */
  datatype Error = InvalidArgument(message: string)

  /** The configuration values the operations read: `varasms.sender_id` and
      `varasms.test_mode`. */
  datatype Settings = Settings(senderId: Option<string>, testMode: bool)

  // ---------------------------------------------------------------------------
  // Paths

  const LiveSinglePath := "/api/sms/v1/text/single"
  const TestSinglePath := "/api/sms/v1/test/text/single"
  const LiveMultiPath := "/api/sms/v1/text/multi"
  const TestMultiPath := "/api/sms/v1/test/text/multi"
  const BalancePath := "/api/sms/v1/balance"
  const RechargePath := "/api/reseller/v1/sub_customer/recharge"
  const DeductPath := "/api/reseller/v1/sub_customer/deduct"
  const ReportsPath := "/api/sms/v1/reports"
  const LogsPath := "/api/sms/v1/logs"
  const CreateSubCustomerPath := "/api/reseller/v1/sub_customer/create"

  // ---------------------------------------------------------------------------
  // Error messages

  function InvalidPhone(number: string): Error {
    InvalidArgument("Invalid phone number format: " + number + ". Must start with 255 followed by 9 digits")
  }

  const DateRangeFormat := InvalidArgument("Dates must be in Y-m-d format (e.g., 2020-02-01)")
  const SentSinceFormat := InvalidArgument("sentSince must be in Y-m-d format (e.g., 2020-02-01)")
  const SentUntilFormat := InvalidArgument("sentUntil must be in Y-m-d format (e.g., 2020-02-01)")
  const PhoneFormat := InvalidArgument("Phone number must start with 255 followed by 9 digits")
  const LimitTooHigh := InvalidArgument("Maximum limit is 500 records")

  function FieldRequired(field: string): Error {
    InvalidArgument("The " + field + " field is required")
  }

  const InvalidEmail := InvalidArgument("Invalid email format")
  const LocalPhoneFormat := InvalidArgument("Phone number must be in the format 0XXXXXXXXX or 255XXXXXXXXX")
  const AccountTypeInvalid := InvalidArgument("Account type must be either \"Sub Customer\" or \"Sub Customer (Reseller)\"")
  const PriceNotPositive := InvalidArgument("SMS price must be a positive number")
  const ScheduleDateFormat := InvalidArgument("Date must be in Y-m-d format (e.g., 2024-03-24)")
  const ScheduleTimeFormat := InvalidArgument("Time must be in 24-hour format HH:mm (e.g., 13:30)")
  const RepeatInvalid := InvalidArgument("Repeat value must be one of: hourly, daily, weekly, monthly")
  const StartDateFormat := InvalidArgument("Start date must be in Y-m-d format")
  const EndDateFormat := InvalidArgument("End date must be in Y-m-d format")
  const EndNotAfterStart := InvalidArgument("End date must be after start date")
  const MessageFieldsMissing := InvalidArgument("Each message must contain \"to\" (string|array) and \"text\" (string) fields")
  const MessageTextEmpty := InvalidArgument("Message text cannot be empty")

  // ---------------------------------------------------------------------------
  // Recipients and sender

  /** `string|array $to`: one number, or a list of numbers. */
  datatype Recipients = One(number: string) | Many(numbers: seq<string>)

  /** `is_array($to) ? $to : [$to]`. */
  function Numbers(to: Recipients): seq<string> {
    match to
    case One(n) => [n]
    case Many(ns) => ns
  }

  /** `$to` as the caller passed it: a string, or a list of strings. */
  function RecipientsValue(to: Recipients): Value {
    match to
    case One(n) => Str(n)
    case Many(ns) => List(seq(|ns|, i requires 0 <= i < |ns| => Str(ns[i])))
  }

  /** A `to` that may be missing from a message array. */
  function OptRecipients(to: Option<Recipients>): Value {
    match to
    case Some(r) => RecipientsValue(r)
    case None => Null
  }

  /** `$senderId ?? config('varasms.sender_id')`. */
  function Sender(senderId: Option<string>, settings: Settings): Value {
    match senderId
    case Some(s) => Str(s)
    case None => StrOrNull(settings.senderId)
  }

  predicate NotPhone(s: string) {
    !IsPhone(s)
  }

  /** The exception the phone `foreach` throws: it names the first number that
      fails the pattern. */
  function PhoneProblem(numbers: seq<string>): (r: Option<Error>)
    ensures r.None? <==> forall k | 0 <= k < |numbers| :: IsPhone(numbers[k])
    ensures r.Some? ==> exists k | 0 <= k < |numbers| ::
      && r.value == InvalidPhone(numbers[k]) && !IsPhone(numbers[k])
      && forall j | 0 <= j < k :: IsPhone(numbers[j])
  {
    match FirstWhere(numbers, NotPhone)
    case Some(k) => Some(InvalidPhone(numbers[k]))
    case None => None
  }

  // ---------------------------------------------------------------------------
  // sendSMS

  /** The body of `sendSMS`: `from`, `to`, `text`, `reference`, falsy ones
      dropped. */
  function SmsPayload(to: Recipients, message: string, senderId: Option<string>, reference: Option<string>, settings: Settings): seq<Entry> {
    ArrayFilter([
      Entry("from", Sender(senderId, settings)),
      Entry("to", RecipientsValue(to)),
      Entry("text", Str(message)),
      Entry("reference", StrOrNull(reference))])
  }

  /** `sendSMS($to, $message, $senderId, $reference)`. */
  function SendSmsRequest(to: Recipients, message: string, senderId: Option<string>, reference: Option<string>, settings: Settings): (r: Result<Request, Error>)
    ensures r.Failure? <==> exists k | 0 <= k < |Numbers(to)| :: !IsPhone(Numbers(to)[k])
    ensures r.Failure? ==> Some(r.error) == PhoneProblem(Numbers(to))
    ensures r.Success? ==> r.value.verb == POST && r.value.body == Json(SmsPayload(to, message, senderId, reference, settings))
    ensures r.Success? ==> (r.value.path == TestSinglePath <==> settings.testMode)
    ensures r.Success? ==> (r.value.path == LiveSinglePath <==> !settings.testMode)
  {
    match PhoneProblem(Numbers(to))
    case Some(e) => Failure(e)
    case None => Success(Request(POST, if settings.testMode then TestSinglePath else LiveSinglePath, Json(SmsPayload(to, message, senderId, reference, settings))))
  }

  /** Each field of the `sendSMS` body is there exactly when its value is
      truthy: a missing or empty reference is left out, never sent as null. */
  lemma SmsPayloadFields(to: Recipients, message: string, senderId: Option<string>, reference: Option<string>, settings: Settings)
    ensures Lookup(SmsPayload(to, message, senderId, reference, settings), "from")
      == if Falsy(Sender(senderId, settings)) then None else Some(Sender(senderId, settings))
    ensures Lookup(SmsPayload(to, message, senderId, reference, settings), "to")
      == if Falsy(RecipientsValue(to)) then None else Some(RecipientsValue(to))
    ensures Lookup(SmsPayload(to, message, senderId, reference, settings), "text")
      == if message == "" || message == "0" then None else Some(Str(message))
    ensures Lookup(SmsPayload(to, message, senderId, reference, settings), "reference")
      == if reference.None? || reference.value == "" || reference.value == "0" then None else Some(Str(reference.value))
  {
    var v0, v1, v2, v3 := Sender(senderId, settings), RecipientsValue(to), Str(message), StrOrNull(reference);
    var es := [Entry("from", v0), Entry("to", v1), Entry("text", v2), Entry("reference", v3)];
    assert SmsPayload(to, message, senderId, reference, settings) == ArrayFilter(es);
    FilteredKey(es, 0);
    FilteredKey(es, 1);
    FilteredKey(es, 2);
    FilteredKey(es, 3);
    if reference.Some? {
      assert v3 == Str(reference.value);
    }
  }

  /** The request of the documented example: all four fields, in order. */
  lemma SendSmsExample(settings: Settings)
    requires !settings.testMode
    ensures SendSmsRequest(One("255738234345"), "Test message", Some("SENDER"), Some("ref123"), settings)
      == Success(Request(POST, LiveSinglePath, Json([
           Entry("from", Str("SENDER")), Entry("to", Str("255738234345")),
           Entry("text", Str("Test message")), Entry("reference", Str("ref123"))])))
  {
    assert IsPhone(["255738234345"][0]);
    FilterKeepsTruthy([
      Entry("from", Str("SENDER")), Entry("to", Str("255738234345")),
      Entry("text", Str("Test message")), Entry("reference", Str("ref123"))]);
  }

  /** An empty recipient list passes the phone loop untouched, and `to` is
      then dropped from the body as an empty array. */
  lemma EmptyRecipientListAccepted(message: string, senderId: Option<string>, reference: Option<string>, settings: Settings)
    ensures SendSmsRequest(Many([]), message, senderId, reference, settings).Success?
    ensures Lookup(SendSmsRequest(Many([]), message, senderId, reference, settings).value.body.payload, "to") == None
  {
    SmsPayloadFields(Many([]), message, senderId, reference, settings);
  }

  // ---------------------------------------------------------------------------
  // sendBulkSMS

  /** One element of `sendBulkSMS`'s `$messages`; a key the caller left out
      reads as null. */
  datatype BulkMessage = BulkMessage(to: Option<Recipients>, message: Option<string>, reference: Option<string>)

  /** One element of the posted `messages` list. */
  function BulkItem(m: BulkMessage, senderId: Option<string>, settings: Settings): Value {
    Dict(ArrayFilter([
      Entry("to", OptRecipients(m.to)),
      Entry("message", StrOrNull(m.message)),
      Entry("from", Sender(senderId, settings)),
      Entry("reference", StrOrNull(m.reference))]))
  }

  /** Each field of a bulk item is there exactly when its value is truthy;
      the sender falls back to the configured one. */
  lemma BulkItemFields(m: BulkMessage, senderId: Option<string>, settings: Settings)
    ensures Lookup(BulkItem(m, senderId, settings).entries, "to")
      == if Falsy(OptRecipients(m.to)) then None else Some(OptRecipients(m.to))
    ensures Lookup(BulkItem(m, senderId, settings).entries, "message")
      == if m.message.None? || m.message.value == "" || m.message.value == "0" then None else Some(Str(m.message.value))
    ensures Lookup(BulkItem(m, senderId, settings).entries, "from")
      == if Falsy(Sender(senderId, settings)) then None else Some(Sender(senderId, settings))
    ensures Lookup(BulkItem(m, senderId, settings).entries, "reference")
      == if m.reference.None? || m.reference.value == "" || m.reference.value == "0" then None else Some(Str(m.reference.value))
  {
    var es := [
      Entry("to", OptRecipients(m.to)),
      Entry("message", StrOrNull(m.message)),
      Entry("from", Sender(senderId, settings)),
      Entry("reference", StrOrNull(m.reference))];
    assert BulkItem(m, senderId, settings).entries == ArrayFilter(es);
    FilteredKey(es, 0);
    FilteredKey(es, 1);
    FilteredKey(es, 2);
    FilteredKey(es, 3);
  }

  /** `sendBulkSMS($messages, $senderId, $reference)`: no checks, always the
      live multi-message path, and the outer body is not filtered. */
  function BulkSmsRequest(messages: seq<BulkMessage>, senderId: Option<string>, reference: Option<string>, settings: Settings): (r: Request)
    ensures r.verb == POST && r.path == LiveMultiPath
    ensures r.body.Json? && |r.body.payload| == 1 && r.body.payload[0].key == "messages"
    ensures r.body.payload[0].value.List? && |r.body.payload[0].value.items| == |messages|
    ensures forall i | 0 <= i < |messages| :: r.body.payload[0].value.items[i] == BulkItem(messages[i], senderId, settings)
  {
    Request(POST, LiveMultiPath, Json([Entry("messages", List(seq(|messages|, i requires 0 <= i < |messages| => BulkItem(messages[i], senderId, settings))))]))
  }

  /** The bulk request depends neither on the `$reference` argument nor on
      test mode, and its items carry the text under `message`, never `text`. */
  lemma BulkIgnoresReferenceAndTestMode(messages: seq<BulkMessage>, senderId: Option<string>, r1: Option<string>, r2: Option<string>, s1: Settings, s2: Settings)
    requires s1.senderId == s2.senderId
    ensures BulkSmsRequest(messages, senderId, r1, s1) == BulkSmsRequest(messages, senderId, r2, s2)
    ensures forall i | 0 <= i < |messages| :: Lookup(BulkItem(messages[i], senderId, s1).entries, "text") == None
  {
    var a := BulkSmsRequest(messages, senderId, r1, s1).body.payload[0].value.items;
    var b := BulkSmsRequest(messages, senderId, r2, s2).body.payload[0].value.items;
    assert a == b;
    forall i | 0 <= i < |messages| ensures Lookup(BulkItem(messages[i], senderId, s1).entries, "text") == None {
      var m := messages[i];
      var es := [
        Entry("to", OptRecipients(m.to)),
        Entry("message", StrOrNull(m.message)),
        Entry("from", Sender(senderId, s1)),
        Entry("reference", StrOrNull(m.reference))];
      FilterMembers(es);
      forall e | e in ArrayFilter(es) ensures e.key != "text" {
        assert e in es;
      }
      LookupFinds(ArrayFilter(es), "text");
    }
  }

  // ---------------------------------------------------------------------------
  // Fixed-path operations

  /** `getBalance()`. */
  function BalanceRequest(): Request {
    Request(GET, BalancePath, NoBody)
  }

  /** `rechargeCustomer($email, $smsCount)`: no checks, no filtering. */
  function RechargeRequest(email: string, smsCount: int): Request {
    Request(POST, RechargePath, Json([Entry("email", Str(email)), Entry("smscount", Int(smsCount))]))
  }

  /** `deductCustomer($email, $smsCount)`: no checks, no filtering. */
  function DeductRequest(email: string, smsCount: int): Request {
    Request(POST, DeductPath, Json([Entry("email", Str(email)), Entry("smscount", Int(smsCount))]))
  }

  /** `getDeliveryReports()`. */
  function ReportsRequest(): Request {
    Request(GET, ReportsPath, NoBody)
  }

  /** `getDeliveryReport($messageId)`: the id goes into the query unfiltered. */
  function ReportRequest(messageId: string): Request {
    Request(GET, ReportsPath, Query([Entry("messageId", Str(messageId))]))
  }

  /** Recharge and deduct accept every email and count (an empty email, a
      zero or negative count) and send both unchanged; they differ only in
      their path. */
  lemma ResellerTransfersUnchecked(email: string, smsCount: int)
    ensures RechargeRequest(email, smsCount).verb == POST && RechargeRequest(email, smsCount).path == RechargePath
    ensures DeductRequest(email, smsCount).verb == POST && DeductRequest(email, smsCount).path == DeductPath
    ensures RechargeRequest(email, smsCount).body == DeductRequest(email, smsCount).body
    ensures var p := RechargeRequest(email, smsCount).body.payload;
      Keys(p) == ["email", "smscount"] && Lookup(p, "email") == Some(Str(email)) && Lookup(p, "smscount") == Some(Int(smsCount))
  {
  }

  /** The report lookups share one path: all reports with no query, one
      report by id with the id sent even when it is empty. */
  lemma ReportQueries(messageId: string)
    ensures ReportsRequest().verb == GET && ReportsRequest().path == ReportsPath && ReportsRequest().body == NoBody
    ensures ReportRequest(messageId).verb == GET && ReportRequest(messageId).path == ReportsPath
    ensures Keys(ReportRequest(messageId).body.params) == ["messageId"]
    ensures Lookup(ReportRequest(messageId).body.params, "messageId") == Some(Str(messageId))
  {
  }

  /** The balance is read with a bare GET. */
  lemma BalanceIsBareGet()
    ensures BalanceRequest().verb == GET && BalanceRequest().path == BalancePath && BalanceRequest().body == NoBody
  {
  }

  // ---------------------------------------------------------------------------
  // getDeliveryReportsByDateRange

  /** `getDeliveryReportsByDateRange($sentSince, $sentUntil)`: both dates must
      be real calendar dates in `YYYY-MM-DD` form. */
  function ReportsByDateRangeRequest(sentSince: string, sentUntil: string): (r: Result<Request, Error>)
    ensures r.Failure? ==> r.error == DateRangeFormat
    ensures r.Success? <==>
      && DateShape(sentSince) && IsCalendarDate(Fields(sentSince))
      && DateShape(sentUntil) && IsCalendarDate(Fields(sentUntil))
    ensures r.Success? ==> r.value == Request(GET, ReportsPath, Query([Entry("sentSince", Str(sentSince)), Entry("sentUntil", Str(sentUntil))]))
  {
    ValidDateMeaning(sentSince);
    ValidDateMeaning(sentUntil);
    if !IsValidDate(sentSince) || !IsValidDate(sentUntil) then Failure(DateRangeFormat)
    else Success(Request(GET, ReportsPath, Query([Entry("sentSince", Str(sentSince)), Entry("sentUntil", Str(sentUntil))])))
  }

  // ---------------------------------------------------------------------------
  // getSMSLogs

  /** The `$filters` of `getSMSLogs`; an absent key is `None`. */
  datatype LogFilter = LogFilter(
    from: Option<string>, to: Option<string>,
    sentSince: Option<string>, sentUntil: Option<string>,
    limit: Option<int>, offset: Option<int>,
    reference: Option<string>)

  /** The query of `getSMSLogs`: the seven filters, falsy ones dropped. */
  function LogQuery(f: LogFilter): seq<Entry> {
    ArrayFilter([
      Entry("from", StrOrNull(f.from)),
      Entry("to", StrOrNull(f.to)),
      Entry("sentSince", StrOrNull(f.sentSince)),
      Entry("sentUntil", StrOrNull(f.sentUntil)),
      Entry("limit", IntOrNull(f.limit)),
      Entry("offset", IntOrNull(f.offset)),
      Entry("reference", StrOrNull(f.reference))])
  }

  /** `getSMSLogs($filters)`: the checks run in the order sentSince, sentUntil,
      to, limit, and the first that fails is thrown. */
  function SmsLogsRequest(f: LogFilter): (r: Result<Request, Error>)
    ensures f.sentSince.Some? && !IsValidDate(f.sentSince.value) ==> r == Failure(SentSinceFormat)
    ensures (f.sentSince.None? || IsValidDate(f.sentSince.value)) && f.sentUntil.Some? && !IsValidDate(f.sentUntil.value)
      ==> r == Failure(SentUntilFormat)
    ensures (f.sentSince.None? || IsValidDate(f.sentSince.value)) && (f.sentUntil.None? || IsValidDate(f.sentUntil.value))
      && f.to.Some? && !IsPhone(f.to.value)
      ==> r == Failure(PhoneFormat)
    ensures (f.sentSince.None? || IsValidDate(f.sentSince.value)) && (f.sentUntil.None? || IsValidDate(f.sentUntil.value))
      && (f.to.None? || IsPhone(f.to.value)) && f.limit.Some? && f.limit.value > 500
      ==> r == Failure(LimitTooHigh)
    ensures r.Success? <==>
      && (f.sentSince.None? || IsValidDate(f.sentSince.value))
      && (f.sentUntil.None? || IsValidDate(f.sentUntil.value))
      && (f.to.None? || IsPhone(f.to.value))
      && (f.limit.None? || f.limit.value <= 500)
    ensures r.Success? ==> r.value == Request(GET, LogsPath, Query(LogQuery(f)))
  {
    if f.sentSince.Some? && !IsValidDate(f.sentSince.value) then Failure(SentSinceFormat)
    else if f.sentUntil.Some? && !IsValidDate(f.sentUntil.value) then Failure(SentUntilFormat)
    else if f.to.Some? && !IsPhone(f.to.value) then Failure(PhoneFormat)
    else if f.limit.Some? && f.limit.value > 500 then Failure(LimitTooHigh)
    else Success(Request(GET, LogsPath, Query(LogQuery(f))))
  }

  /** The limit bound is inclusive: 500 is accepted, 501 is not, and a
      negative limit is not rejected. */
  lemma LogLimitBoundary(limit: int)
    ensures SmsLogsRequest(LogFilter(None, None, None, None, Some(limit), None, None)).Success? <==> limit <= 500
    ensures limit > 500 ==> SmsLogsRequest(LogFilter(None, None, None, None, Some(limit), None, None)) == Failure(LimitTooHigh)
  {
  }

  /** A zero limit or offset, and an empty or `"0"` reference, do not reach
      the query; a non-zero limit or offset does, unchanged. */
  lemma LogQueryDropsFalsy(f: LogFilter)
    ensures Lookup(LogQuery(f), "limit") == if f.limit.Some? && f.limit.value != 0 then Some(Int(f.limit.value)) else None
    ensures Lookup(LogQuery(f), "offset") == if f.offset.Some? && f.offset.value != 0 then Some(Int(f.offset.value)) else None
    ensures Lookup(LogQuery(f), "reference") == if f.reference.Some? && f.reference.value != "" && f.reference.value != "0" then Some(Str(f.reference.value)) else None
  {
    var es := [
      Entry("from", StrOrNull(f.from)),
      Entry("to", StrOrNull(f.to)),
      Entry("sentSince", StrOrNull(f.sentSince)),
      Entry("sentUntil", StrOrNull(f.sentUntil)),
      Entry("limit", IntOrNull(f.limit)),
      Entry("offset", IntOrNull(f.offset)),
      Entry("reference", StrOrNull(f.reference))];
    FilteredKey(es, 4);
    FilteredKey(es, 5);
    FilteredKey(es, 6);
  }

  /** The sender, recipient and date filters reach the query unchanged when
      they are set and truthy, and not at all otherwise. */
  lemma LogQueryFilters(f: LogFilter)
    ensures Lookup(LogQuery(f), "from") == if f.from.Some? && !Falsy(Str(f.from.value)) then Some(Str(f.from.value)) else None
    ensures Lookup(LogQuery(f), "to") == if f.to.Some? && !Falsy(Str(f.to.value)) then Some(Str(f.to.value)) else None
    ensures Lookup(LogQuery(f), "sentSince") == if f.sentSince.Some? && !Falsy(Str(f.sentSince.value)) then Some(Str(f.sentSince.value)) else None
    ensures Lookup(LogQuery(f), "sentUntil") == if f.sentUntil.Some? && !Falsy(Str(f.sentUntil.value)) then Some(Str(f.sentUntil.value)) else None
  {
    var es := [
      Entry("from", StrOrNull(f.from)),
      Entry("to", StrOrNull(f.to)),
      Entry("sentSince", StrOrNull(f.sentSince)),
      Entry("sentUntil", StrOrNull(f.sentUntil)),
      Entry("limit", IntOrNull(f.limit)),
      Entry("offset", IntOrNull(f.offset)),
      Entry("reference", StrOrNull(f.reference))];
    FilteredKey(es, 0);
    FilteredKey(es, 1);
    FilteredKey(es, 2);
    FilteredKey(es, 3);
  }

  // ---------------------------------------------------------------------------
  // registerSubCustomer

  const RequiredFields: seq<string> := ["first_name", "last_name", "username", "email", "phone_number", "account_type", "sms_price"]

  /** `$customerData[$field]`, null when the key is missing. */
  function Field(data: seq<Entry>, name: string): Value {
    match Lookup(data, name)
    case Some(v) => v
    case None => Null
  }

  /** The exception of the required-fields `foreach`: it names the first of
      the seven fields that is missing or empty. */
  function MissingField(data: seq<Entry>): (r: Option<Error>)
    ensures r.None? <==> forall k | 0 <= k < |RequiredFields| :: !IsEmpty(data, RequiredFields[k])
    ensures r.Some? ==> exists k | 0 <= k < |RequiredFields| ::
      && r.value == FieldRequired(RequiredFields[k]) && IsEmpty(data, RequiredFields[k])
      && forall j | 0 <= j < k :: !IsEmpty(data, RequiredFields[j])
  {
    match FirstWhere(RequiredFields, f => IsEmpty(data, f))
    case Some(k) => Some(FieldRequired(RequiredFields[k]))
    case None => None
  }

  /** A number in local form (`0` and the rest) in international form. */
  function LocalToInternational(phone: string): string {
    if |phone| > 0 && phone[0] == '0' then "255" + phone[1..] else phone
  }

  /** `in_array($type, ['Sub Customer', 'Sub Customer (Reseller)'])` with PHP's
      loose comparison: `true` equals every non-empty string. */
  predicate IsAccountType(v: Value) {
    v == Str("Sub Customer") || v == Str("Sub Customer (Reseller)") || v == Bool(true)
  }

  /** `is_numeric($price) && $price > 0` for integer and float prices. */
  predicate IsPositivePrice(v: Value) {
    (v.Int? && v.i > 0) || (v.Real? && v.r > 0.0)
  }

  /** PHP 8's loose `==` between a value and a string that is not numeric: a
      bool compares as a bool, null as the empty string, a string character
      by character; a number prints as a numeric string and an array is
      greater than any string, so neither is ever equal. */
  predicate LooselyEquals(v: Value, t: string) {
    match v
    case Bool(b) => b == !Falsy(Str(t))
    case Null => t == ""
    case Str(s) => s == t
    case _ => false
  }

  const AccountTypes: seq<string> := ["Sub Customer", "Sub Customer (Reseller)"]

  /** The account-type check is `in_array` over the two account types: some
      type is loosely equal to the given value. */
  lemma AccountTypeMatches(v: Value)
    ensures IsAccountType(v) <==> exists k | 0 <= k < |AccountTypes| :: LooselyEquals(v, AccountTypes[k])
  {
    if IsAccountType(v) {
      if v == Str("Sub Customer (Reseller)") {
        assert LooselyEquals(v, AccountTypes[1]);
      } else {
        assert LooselyEquals(v, AccountTypes[0]);
      }
    }
  }

  /** A price must be a number above zero: `true`, although `true > 0`, is
      not numeric, and neither is an array or null. */
  lemma PriceChecks(v: Value)
    ensures !v.Int? && !v.Real? ==> !IsPositivePrice(v)
    ensures IsPositivePrice(Int(1)) && IsPositivePrice(Real(0.5))
    ensures !IsPositivePrice(Int(-5)) && !IsPositivePrice(Real(0.0)) && !IsPositivePrice(Bool(true))
  {
  }

  /** The email check of `registerSubCustomer`. */
  predicate EmailAccepted(data: seq<Entry>, isEmail: string -> bool) {
    Field(data, "email").Str? && isEmail(Field(data, "email").s)
  }

  /** The phone check of `registerSubCustomer`, after the local-to-international
      rewriting. */
  predicate PhoneAccepted(data: seq<Entry>) {
    Field(data, "phone_number").Str? && IsPhone(LocalToInternational(Field(data, "phone_number").s))
  }

  /** `registerSubCustomer($customerData)`; `isEmail` stands for
      `filter_var(..., FILTER_VALIDATE_EMAIL)`. The checks run in the order
      required fields, email, phone, account type, price, and the first that
      fails is thrown. */
  function RegisterSubCustomerRequest(data: seq<Entry>, isEmail: string -> bool): (r: Result<Request, Error>)
    ensures MissingField(data).Some? ==> r == Failure(MissingField(data).value)
    ensures MissingField(data).None? && !EmailAccepted(data, isEmail) ==> r == Failure(InvalidEmail)
    ensures MissingField(data).None? && EmailAccepted(data, isEmail) && !PhoneAccepted(data)
      ==> r == Failure(LocalPhoneFormat)
    ensures MissingField(data).None? && EmailAccepted(data, isEmail) && PhoneAccepted(data)
      && !IsAccountType(Field(data, "account_type"))
      ==> r == Failure(AccountTypeInvalid)
    ensures MissingField(data).None? && EmailAccepted(data, isEmail) && PhoneAccepted(data)
      && IsAccountType(Field(data, "account_type")) && !IsPositivePrice(Field(data, "sms_price"))
      ==> r == Failure(PriceNotPositive)
    ensures r.Success? ==> r.value.verb == POST && r.value.path == CreateSubCustomerPath && r.value.body.Json?
    ensures r.Success? <==>
      && MissingField(data).None?
      && EmailAccepted(data, isEmail)
      && PhoneAccepted(data)
      && IsAccountType(Field(data, "account_type"))
      && IsPositivePrice(Field(data, "sms_price"))
  {
    match MissingField(data)
    case Some(e) => Failure(e)
    case None =>
      var email := Field(data, "email");
      if !(email.Str? && isEmail(email.s)) then Failure(InvalidEmail)
      else
        var phone := Field(data, "phone_number");
        if !phone.Str? || !IsPhone(LocalToInternational(phone.s)) then Failure(LocalPhoneFormat)
        else if !IsAccountType(Field(data, "account_type")) then Failure(AccountTypeInvalid)
        else if !IsPositivePrice(Field(data, "sms_price")) then Failure(PriceNotPositive)
        else Success(Request(POST, CreateSubCustomerPath, Json(Put(data, "phone_number", Str(LocalToInternational(phone.s))))))
  }

  /** On success the posted data is the caller's, key for key and in the same
      order, except that `phone_number` holds the number in international form. */
  lemma SubCustomerPayload(data: seq<Entry>, isEmail: string -> bool)
    requires RegisterSubCustomerRequest(data, isEmail).Success?
    ensures var p := RegisterSubCustomerRequest(data, isEmail).value.body.payload;
      && Keys(p) == Keys(data)
      && Lookup(p, "phone_number") == Some(Str(LocalToInternational(Field(data, "phone_number").s)))
      && IsPhone(LocalToInternational(Field(data, "phone_number").s))
      && forall k | k != "phone_number" :: Lookup(p, k) == Lookup(data, k)
  {
    var phone := Str(LocalToInternational(Field(data, "phone_number").s));
    assert !IsEmpty(data, RequiredFields[4]);
    PutKeepsKeys(data, "phone_number", phone);
    PutStores(data, "phone_number", phone);
    forall k | k != "phone_number" ensures Lookup(Put(data, "phone_number", phone), k) == Lookup(data, k) {
      PutLeavesOthers(data, "phone_number", phone, k);
    }
  }

  /** Both accepted forms of a number: `0` and nine digits becomes `255` and
      the same nine digits, and a number already in international form is
      kept as it is. So `0738234345` is posted as `255738234345`. */
  lemma LocalNumberForms(phone: string)
    ensures |phone| == 10 && phone[0] == '0' && (forall i | 1 <= i < 10 :: IsDigit(phone[i]))
      ==> LocalToInternational(phone) == "255" + phone[1..] && IsPhone(LocalToInternational(phone))
    ensures IsPhone(phone) ==> LocalToInternational(phone) == phone
    ensures (|phone| == 0 || phone[0] != '0') ==> LocalToInternational(phone) == phone
    ensures LocalToInternational("0738234345") == "255738234345"
  {
    if |phone| == 10 && phone[0] == '0' && (forall i | 1 <= i < 10 :: IsDigit(phone[i])) {
      var r := "255" + phone[1..];
      assert forall i | 3 <= i < 12 :: r[i] == phone[i - 2];
    }
  }

  /** A zero price counts as a missing field, not as a non-positive price. */
  lemma ZeroPriceIsMissing(data: seq<Entry>, isEmail: string -> bool)
    requires forall k | 0 <= k < 6 :: !IsEmpty(data, RequiredFields[k])
    requires Lookup(data, "sms_price") == Some(Int(0))
    ensures RegisterSubCustomerRequest(data, isEmail) == Failure(FieldRequired("sms_price"))
  {
    assert IsEmpty(data, RequiredFields[6]);
    var e := MissingField(data).value;
    var k :| 0 <= k < |RequiredFields| && e == FieldRequired(RequiredFields[k]) && IsEmpty(data, RequiredFields[k])
      && forall j | 0 <= j < k :: !IsEmpty(data, RequiredFields[j]);
    assert k == 6;
  }

  // ---------------------------------------------------------------------------
  // scheduleSMS

  /** The `$recurring` settings of `scheduleSMS`; an absent key is `None`. */
  datatype Recurrence = Recurrence(repeat: Option<string>, startDate: Option<string>, endDate: Option<string>)

  const RepeatValues: seq<string> := ["hourly", "daily", "weekly", "monthly"]

  /** `strtotime($end) > strtotime($start)` for two valid dates: the end is a
      later calendar day. */
  predicate EndsAfter(start: string, end: string)
    requires IsValidDate(start) && IsValidDate(end)
  {
    ValidDateMeaning(start);
    ValidDateMeaning(end);
    Before(Fields(start), Fields(end))
  }

  /** The checks on a non-empty `$recurring`, in order: repeat, start date,
      end date, then their order. */
  function RecurrenceProblem(rec: Recurrence): (r: Option<Error>)
    ensures rec.repeat.Some? && rec.repeat.value !in RepeatValues ==> r == Some(RepeatInvalid)
    ensures (rec.repeat.None? || rec.repeat.value in RepeatValues)
      && rec.startDate.Some? && !IsValidDate(rec.startDate.value)
      ==> r == Some(StartDateFormat)
    ensures (rec.repeat.None? || rec.repeat.value in RepeatValues)
      && (rec.startDate.None? || IsValidDate(rec.startDate.value))
      && rec.endDate.Some? && !IsValidDate(rec.endDate.value)
      ==> r == Some(EndDateFormat)
    ensures (rec.repeat.None? || rec.repeat.value in RepeatValues)
      && rec.startDate.Some? && IsValidDate(rec.startDate.value)
      && rec.endDate.Some? && IsValidDate(rec.endDate.value)
      && !EndsAfter(rec.startDate.value, rec.endDate.value)
      ==> r == Some(EndNotAfterStart)
    ensures r.None? <==>
      && (rec.repeat.None? || rec.repeat.value in RepeatValues)
      && (rec.startDate.None? || IsValidDate(rec.startDate.value))
      && (rec.endDate.None? || IsValidDate(rec.endDate.value))
      && (rec.startDate.Some? && rec.endDate.Some? && IsValidDate(rec.startDate.value) && IsValidDate(rec.endDate.value)
          ==> EndsAfter(rec.startDate.value, rec.endDate.value))
  {
    if rec.repeat.Some? && rec.repeat.value !in RepeatValues then Some(RepeatInvalid)
    else if rec.startDate.Some? && !IsValidDate(rec.startDate.value) then Some(StartDateFormat)
    else if rec.endDate.Some? && !IsValidDate(rec.endDate.value) then Some(EndDateFormat)
    else if rec.startDate.Some? && rec.endDate.Some? && !EndsAfter(rec.startDate.value, rec.endDate.value) then Some(EndNotAfterStart)
    else None
  }

  /** `$recurring[$key] ?? null`, with `None` for an empty `$recurring`. */
  function RecurringValue(recurring: Option<Recurrence>, pick: Recurrence -> Option<string>): Value {
    match recurring
    case Some(rec) => StrOrNull(pick(rec))
    case None => Null
  }

  function RepeatOf(rec: Recurrence): Option<string> { rec.repeat }
  function StartOf(rec: Recurrence): Option<string> { rec.startDate }
  function EndOf(rec: Recurrence): Option<string> { rec.endDate }

  /** The body of `scheduleSMS`. */
  function SchedulePayload(to: string, message: string, date: string, time: string, senderId: Option<string>, recurring: Option<Recurrence>, settings: Settings): seq<Entry> {
    ArrayFilter([
      Entry("from", Sender(senderId, settings)),
      Entry("to", Str(to)),
      Entry("text", Str(message)),
      Entry("date", Str(date)),
      Entry("time", Str(time)),
      Entry("repeat", RecurringValue(recurring, RepeatOf)),
      Entry("start_date", RecurringValue(recurring, StartOf)),
      Entry("end_date", RecurringValue(recurring, EndOf))])
  }

  /** `scheduleSMS($to, $message, $date, $time, $senderId, $recurring)`, where
      an empty `$recurring` is `None`. Checks run in the order phone, date,
      time, recurrence; the request always goes to the live single path. */
  function ScheduleSmsRequest(to: string, message: string, date: string, time: string, senderId: Option<string>, recurring: Option<Recurrence>, settings: Settings): (r: Result<Request, Error>)
    ensures !IsPhone(to) ==> r == Failure(PhoneFormat)
    ensures IsPhone(to) && !IsValidDate(date) ==> r == Failure(ScheduleDateFormat)
    ensures IsPhone(to) && IsValidDate(date) && !IsTime(time) ==> r == Failure(ScheduleTimeFormat)
    ensures IsPhone(to) && IsValidDate(date) && IsTime(time) && recurring.Some? && RecurrenceProblem(recurring.value).Some?
      ==> r == Failure(RecurrenceProblem(recurring.value).value)
    ensures r.Success? <==> IsPhone(to) && IsValidDate(date) && IsTime(time) && (recurring.None? || RecurrenceProblem(recurring.value).None?)
    ensures r.Success? ==> r.value == Request(POST, LiveSinglePath, Json(SchedulePayload(to, message, date, time, senderId, recurring, settings)))
  {
    if !IsPhone(to) then Failure(PhoneFormat)
    else if !IsValidDate(date) then Failure(ScheduleDateFormat)
    else if !IsTime(time) then Failure(ScheduleTimeFormat)
    else if recurring.Some? && RecurrenceProblem(recurring.value).Some? then Failure(RecurrenceProblem(recurring.value).value)
    else Success(Request(POST, LiveSinglePath, Json(SchedulePayload(to, message, date, time, senderId, recurring, settings))))
  }

  /** A recurrence whose start and end dates are the same day is rejected:
      the end must be strictly after the start. */
  lemma SameStartAndEndRejected(to: string, message: string, date: string, time: string, senderId: Option<string>, repeat: Option<string>, day: string, settings: Settings)
    requires IsPhone(to) && IsValidDate(date) && IsTime(time)
    requires repeat.None? || repeat.value in RepeatValues
    requires IsValidDate(day)
    ensures ScheduleSmsRequest(to, message, date, time, senderId, Some(Recurrence(repeat, Some(day), Some(day))), settings)
      == Failure(EndNotAfterStart)
  {
  }

  /** An empty `$recurring` and one whose keys are all absent give the same
      result: every recurrence check is guarded by `isset`. */
  lemma EmptyRecurrenceChecksNothing(to: string, message: string, date: string, time: string, senderId: Option<string>, settings: Settings)
    ensures ScheduleSmsRequest(to, message, date, time, senderId, None, settings)
      == ScheduleSmsRequest(to, message, date, time, senderId, Some(Recurrence(None, None, None)), settings)
  {
    assert SchedulePayload(to, message, date, time, senderId, None, settings)
      == SchedulePayload(to, message, date, time, senderId, Some(Recurrence(None, None, None)), settings);
  }

  /** The message fields of the `scheduleSMS` body: each is there exactly
      when truthy, with the caller's value; the sender falls back to the
      configured one. */
  lemma ScheduleMessageFields(to: string, message: string, date: string, time: string, senderId: Option<string>, recurring: Option<Recurrence>, settings: Settings)
    ensures var p := SchedulePayload(to, message, date, time, senderId, recurring, settings);
      && Lookup(p, "from") == (if Falsy(Sender(senderId, settings)) then None else Some(Sender(senderId, settings)))
      && Lookup(p, "to") == (if Falsy(Str(to)) then None else Some(Str(to)))
      && Lookup(p, "text") == (if Falsy(Str(message)) then None else Some(Str(message)))
      && Lookup(p, "date") == (if Falsy(Str(date)) then None else Some(Str(date)))
      && Lookup(p, "time") == (if Falsy(Str(time)) then None else Some(Str(time)))
  {
    var es := [
      Entry("from", Sender(senderId, settings)), Entry("to", Str(to)), Entry("text", Str(message)),
      Entry("date", Str(date)), Entry("time", Str(time)),
      Entry("repeat", RecurringValue(recurring, RepeatOf)),
      Entry("start_date", RecurringValue(recurring, StartOf)),
      Entry("end_date", RecurringValue(recurring, EndOf))];
    assert SchedulePayload(to, message, date, time, senderId, recurring, settings) == ArrayFilter(es);
    FilteredKey(es, 0);
    FilteredKey(es, 1);
    FilteredKey(es, 2);
    FilteredKey(es, 3);
    FilteredKey(es, 4);
  }

  /** The recurrence fields of the `scheduleSMS` body: none without
      `$recurring`; otherwise each set and truthy setting, with its value. */
  lemma ScheduleRecurrenceFields(to: string, message: string, date: string, time: string, senderId: Option<string>, recurring: Option<Recurrence>, settings: Settings)
    ensures var p := SchedulePayload(to, message, date, time, senderId, recurring, settings);
      recurring.None? ==> Lookup(p, "repeat") == None && Lookup(p, "start_date") == None && Lookup(p, "end_date") == None
    ensures var p := SchedulePayload(to, message, date, time, senderId, recurring, settings);
      recurring.Some? ==>
        && Lookup(p, "repeat") == (if Falsy(StrOrNull(recurring.value.repeat)) then None else Some(StrOrNull(recurring.value.repeat)))
        && Lookup(p, "start_date") == (if Falsy(StrOrNull(recurring.value.startDate)) then None else Some(StrOrNull(recurring.value.startDate)))
        && Lookup(p, "end_date") == (if Falsy(StrOrNull(recurring.value.endDate)) then None else Some(StrOrNull(recurring.value.endDate)))
  {
    var es := [
      Entry("from", Sender(senderId, settings)), Entry("to", Str(to)), Entry("text", Str(message)),
      Entry("date", Str(date)), Entry("time", Str(time)),
      Entry("repeat", RecurringValue(recurring, RepeatOf)),
      Entry("start_date", RecurringValue(recurring, StartOf)),
      Entry("end_date", RecurringValue(recurring, EndOf))];
    assert SchedulePayload(to, message, date, time, senderId, recurring, settings) == ArrayFilter(es);
    FilteredKey(es, 5);
    FilteredKey(es, 6);
    FilteredKey(es, 7);
  }

  /** A request that passes the checks always carries its number, date and
      time. */
  lemma ScheduleCarriesDateAndTime(to: string, message: string, date: string, time: string, senderId: Option<string>, recurring: Option<Recurrence>, settings: Settings)
    requires IsPhone(to) && IsValidDate(date) && IsTime(time)
    ensures Lookup(SchedulePayload(to, message, date, time, senderId, recurring, settings), "date") == Some(Str(date))
    ensures Lookup(SchedulePayload(to, message, date, time, senderId, recurring, settings), "time") == Some(Str(time))
    ensures Lookup(SchedulePayload(to, message, date, time, senderId, recurring, settings), "to") == Some(Str(to))
  {
    ValidDateMeaning(date);
    assert |to| >= 12 && |date| == 10 && |time| >= 5;
    assert !Falsy(Str(to)) && !Falsy(Str(date)) && !Falsy(Str(time));
    ScheduleMessageFields(to, message, date, time, senderId, recurring, settings);
  }

  // ---------------------------------------------------------------------------
  // sendMultipleMessages

  /** One element of `sendMultipleMessages`'s `$messages`; a key the caller left
      out, or set to null, is `None`. */
  datatype MultiMessage = MultiMessage(to: Option<Recipients>, text: Option<string>, from: Option<string>)

  /** The exception one message raises in the checking `foreach`: missing `to`
      or `text`, then the first bad number, then empty text. */
  function MessageProblem(m: MultiMessage): Option<Error> {
    if m.to.None? || m.text.None? then Some(MessageFieldsMissing)
    else match PhoneProblem(Numbers(m.to.value))
      case Some(e) => Some(e)
      case None => if Falsy(Str(m.text.value)) then Some(MessageTextEmpty) else None
  }

  predicate HasProblem(m: MultiMessage) {
    MessageProblem(m).Some?
  }

  /** The checks on one message, in order: `to` and `text` are both set, every
      recipient is a valid number (the first that is not is named), and the
      text is not empty in PHP's sense (`""` or `"0"`). */
  lemma MessageChecks(m: MultiMessage)
    ensures m.to.None? || m.text.None? ==> MessageProblem(m) == Some(MessageFieldsMissing)
    ensures m.to.Some? && m.text.Some? && (exists k | 0 <= k < |Numbers(m.to.value)| :: !IsPhone(Numbers(m.to.value)[k]))
      ==> MessageProblem(m) == PhoneProblem(Numbers(m.to.value)) && MessageProblem(m).Some?
    ensures m.to.Some? && m.text.Some? && (forall k | 0 <= k < |Numbers(m.to.value)| :: IsPhone(Numbers(m.to.value)[k]))
      && (m.text.value == "" || m.text.value == "0")
      ==> MessageProblem(m) == Some(MessageTextEmpty)
    ensures MessageProblem(m).None? <==>
      && m.to.Some? && m.text.Some?
      && (forall k | 0 <= k < |Numbers(m.to.value)| :: IsPhone(Numbers(m.to.value)[k]))
      && m.text.value != "" && m.text.value != "0"
    ensures MessageProblem(MultiMessage(Some(One("0738234345")), Some("Hi"), None)) == Some(InvalidPhone("0738234345"))
  {
    var bad := MultiMessage(Some(One("0738234345")), Some("Hi"), None);
    assert !IsPhone(Numbers(bad.to.value)[0]);
  }

  /** The exception of the whole `foreach`: the first message's problem. */
  function MessagesProblem(messages: seq<MultiMessage>): (r: Option<Error>)
    ensures r.None? <==> forall k | 0 <= k < |messages| :: MessageProblem(messages[k]).None?
    ensures r.Some? ==> exists k | 0 <= k < |messages| ::
      && r == MessageProblem(messages[k])
      && forall j | 0 <= j < k :: MessageProblem(messages[j]).None?
  {
    match FirstWhere(messages, HasProblem)
    case Some(k) => MessageProblem(messages[k])
    case None => None
  }

  /** One element of the posted `messages` list. */
  function FormatMessage(m: MultiMessage, settings: Settings): Value {
    Dict(ArrayFilter([
      Entry("from", Sender(m.from, settings)),
      Entry("to", OptRecipients(m.to)),
      Entry("text", StrOrNull(m.text))]))
  }

  function FormatMessages(messages: seq<MultiMessage>, settings: Settings): (r: seq<Value>)
    ensures |r| == |messages|
    ensures forall i | 0 <= i < |messages| :: r[i] == FormatMessage(messages[i], settings)
  {
    seq(|messages|, i requires 0 <= i < |messages| => FormatMessage(messages[i], settings))
  }

  /** `sendMultipleMessages($messages, $reference)`. */
  function SendMultipleRequest(messages: seq<MultiMessage>, reference: Option<string>, settings: Settings): (r: Result<Request, Error>)
    ensures r.Failure? <==> exists k | 0 <= k < |messages| :: MessageProblem(messages[k]).Some?
    ensures r.Failure? ==> Some(r.error) == MessagesProblem(messages)
    ensures r.Success? ==> r.value.verb == POST && (r.value.path == TestMultiPath <==> settings.testMode)
    ensures r.Success? ==> r.value.path == (if settings.testMode then TestMultiPath else LiveMultiPath)
    ensures r.Success? ==> r.value.body == Json(ArrayFilter([Entry("messages", List(FormatMessages(messages, settings))), Entry("reference", StrOrNull(reference))]))
  {
    match MessagesProblem(messages)
    case Some(e) => Failure(e)
    case None =>
      var payload := ArrayFilter([Entry("messages", List(FormatMessages(messages, settings))), Entry("reference", StrOrNull(reference))]);
      Success(Request(POST, if settings.testMode then TestMultiPath else LiveMultiPath, Json(payload)))
  }

  /** One message that passed the checks is posted with its text, and with
      its recipients and its sender exactly when they are truthy (the sender
      falls back to the configured one). */
  lemma MessagePosted(m: MultiMessage, settings: Settings)
    requires MessageProblem(m).None?
    ensures Lookup(FormatMessage(m, settings).entries, "text") == Some(Str(m.text.value))
    ensures Lookup(FormatMessage(m, settings).entries, "from") ==
      (if Falsy(Sender(m.from, settings)) then None else Some(Sender(m.from, settings)))
    ensures Lookup(FormatMessage(m, settings).entries, "to") ==
      (if Falsy(OptRecipients(m.to)) then None else Some(OptRecipients(m.to)))
  {
    var ms := [Entry("from", Sender(m.from, settings)), Entry("to", OptRecipients(m.to)), Entry("text", StrOrNull(m.text))];
    assert FormatMessage(m, settings).entries == ArrayFilter(ms);
    FilteredKey(ms, 0);
    FilteredKey(ms, 1);
    FilteredKey(ms, 2);
  }

  /** On success every message is posted, in order, as `MessagePosted`
      describes; an empty message list drops the `messages` key altogether. */
  lemma MultipleMessagesPosted(messages: seq<MultiMessage>, reference: Option<string>, settings: Settings)
    requires SendMultipleRequest(messages, reference, settings).Success?
    ensures var p := SendMultipleRequest(messages, reference, settings).value.body.payload;
      && (messages == [] ==> Lookup(p, "messages") == None)
      && (messages != [] ==> Lookup(p, "messages") == Some(List(FormatMessages(messages, settings))))
    ensures forall i | 0 <= i < |messages| ::
      Lookup(FormatMessage(messages[i], settings).entries, "text") == Some(Str(messages[i].text.value))
  {
    var es := [Entry("messages", List(FormatMessages(messages, settings))), Entry("reference", StrOrNull(reference))];
    FilteredKey(es, 0);
    forall i | 0 <= i < |messages|
      ensures Lookup(FormatMessage(messages[i], settings).entries, "text") == Some(Str(messages[i].text.value))
    {
      MessagePosted(messages[i], settings);
    }
  }
}
