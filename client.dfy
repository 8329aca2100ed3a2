/** The `VaraSMSClient` object: its constructor, which fixes the base URL and
    the `Authorization` header once, and its operations, each of which checks
    its arguments in the order the code does, builds one request and hands it
    to the transport. */
module Client {
  import opened Php
  import opened Base64
  import opened Formats
  import opened Requests
  import opened Dispatch

  /** The constructor's `$config`; a key that is missing or null is `None`. */
  datatype Config = Config(
    authMethod: Option<string>,
    username: Option<ByteString>,
    password: Option<ByteString>,
    token: Option<string>)

  /** `empty(...)` for a string setting. */
  predicate Blank(o: Option<string>) {
    o.None? || Falsy(Str(o.value))
  }

  const TokenRequired := InvalidArgument("Authorization token is required when using token authentication.")
  const CredentialsRequired := InvalidArgument("Username and password are required when using basic authentication.")

  /** `rtrim($baseUrl, '/')`. */
  function TrimSlashes(url: string): (r: string)
    ensures r <= url
    ensures r == [] || r[|r| - 1] != '/'
    ensures forall i | |r| <= i < |url| :: url[i] == '/'
  {
    if url != [] && url[|url| - 1] == '/' then TrimSlashes(url[..|url| - 1]) else url
  }

  /** Trimming twice is trimming once, and a URL with no trailing slash is
      kept whole. */
  lemma TrimSlashesIdempotent(url: string)
    ensures TrimSlashes(TrimSlashes(url)) == TrimSlashes(url)
    ensures url == [] || url[|url| - 1] != '/' ==> TrimSlashes(url) == url
    ensures TrimSlashes(url + "/") == TrimSlashes(url)
  {
    assert (url + "/")[..|url|] == url;
  }

  /** The value of the `Authorization` header: in token mode the token as
      given, otherwise the base64 of `username:password`. */
  function Authorization(config: Config): (r: Result<string, Error>)
    ensures config.authMethod == Some("token") ==> (r.Failure? <==> Blank(config.token))
    ensures config.authMethod != Some("token") ==> (r.Failure? <==> Blank(config.username) || Blank(config.password))
    ensures r.Failure? ==> r.error == if config.authMethod == Some("token") then TokenRequired else CredentialsRequired
    ensures r.Success? && config.authMethod == Some("token") ==> r.value == "Basic " + config.token.value
    ensures r.Success? && config.authMethod != Some("token")
      ==> r.value == "Basic " + Encode(config.username.value + ":" + config.password.value)
  {
    if config.authMethod == Some("token") then
      if Blank(config.token) then Failure(TokenRequired) else Success("Basic " + config.token.value)
    else if Blank(config.username) || Blank(config.password) then Failure(CredentialsRequired)
    else
      var userPass: ByteString := config.username.value + ":" + config.password.value;
      Success("Basic " + Encode(userPass))
  }

  /** Outside token mode the header carries the credentials: a server reading
      it per section 2 of RFC 7617 recovers the username and the password
      (when the username has no colon, as that section requires). */
  lemma BasicCredentialsRecovered(config: Config)
    requires config.authMethod != Some("token")
    requires Authorization(config).Success?
    requires ':' !in config.username.value
    ensures ParseBasicAuthorization(Authorization(config).value) == Some((config.username.value, config.password.value))
  {
    BasicAuthorizationRoundTrip(config.username.value, config.password.value);
  }

  /** The headers of every request. */
  function Headers(authorization: string): seq<(string, string)> {
    [("Accept", "application/json"), ("Content-Type", "application/json"), ("Authorization", authorization)]
  }

  // ---------------------------------------------------------------------------
  // The `foreach` loops that stop at the first bad element

  /** The phone loop of `sendSMS` and of each message in
      `sendMultipleMessages`. */
  method FirstBadNumber(numbers: seq<string>) returns (problem: Option<Error>)
    ensures problem == PhoneProblem(numbers)
  {
    var i := 0;
    while i < |numbers|
      invariant 0 <= i <= |numbers|
      invariant forall j | 0 <= j < i :: IsPhone(numbers[j])
    {
      if !IsPhone(numbers[i]) {
        ghost var k := FirstWhere(numbers, NotPhone);
        assert k == Some(i);
        return Some(InvalidPhone(numbers[i]));
      }
      i := i + 1;
    }
    return None;
  }

  /** The required-fields loop of `registerSubCustomer`. */
  method FirstMissingField(data: seq<Entry>) returns (problem: Option<Error>)
    ensures problem == MissingField(data)
  {
    for i := 0 to |RequiredFields|
      invariant forall j | 0 <= j < i :: !IsEmpty(data, RequiredFields[j])
    {
      if IsEmpty(data, RequiredFields[i]) {
        ghost var k := FirstWhere(RequiredFields, f => IsEmpty(data, f));
        assert k == Some(i);
        return Some(FieldRequired(RequiredFields[i]));
      }
    }
    return None;
  }

  /** The checking loop of `sendMultipleMessages`: for each message in turn,
      `to` and `text` present, then its numbers, then non-empty text. */
  method FirstBadMessage(messages: seq<MultiMessage>) returns (problem: Option<Error>)
    ensures problem == MessagesProblem(messages)
  {
    for i := 0 to |messages|
      invariant forall j | 0 <= j < i :: MessageProblem(messages[j]).None?
    {
      var m := messages[i];
      if m.to.None? || m.text.None? {
        problem := Some(MessageFieldsMissing);
      } else {
        problem := FirstBadNumber(Numbers(m.to.value));
        if problem.None? && Falsy(Str(m.text.value)) {
          problem := Some(MessageTextEmpty);
        }
      }
      assert problem == MessageProblem(m);
      if problem.Some? {
        ghost var k := FirstWhere(messages, HasProblem);
        assert k == Some(i);
        return;
      }
    }
    return None;
  }

  // ---------------------------------------------------------------------------
  // The client

  class VaraSMSClient {
    var baseUrl: string
    var client: Transport

    /** The object the constructor leaves once its checks have passed. */
    constructor Open(baseUrl: string, authorization: string)
      ensures this.baseUrl == TrimSlashes(baseUrl)
      ensures client == Transport(TrimSlashes(baseUrl), Headers(authorization))
    {
      this.baseUrl := TrimSlashes(baseUrl);
      client := Transport(TrimSlashes(baseUrl), Headers(authorization));
    }

    /** `new VaraSMSClient($baseUrl, $config)`: fails as `Authorization` does;
        otherwise the base URL has its trailing slashes removed and every
        request carries the `Authorization` header. */
    static method Create(baseUrl: string, config: Config) returns (r: Result<VaraSMSClient, Error>)
      ensures r.Failure? <==> Authorization(config).Failure?
      ensures r.Failure? ==> r.error == Authorization(config).error
      ensures r.Success? ==> fresh(r.value)
      ensures r.Success? ==> r.value.baseUrl == TrimSlashes(baseUrl)
      ensures r.Success? ==> r.value.client == Transport(TrimSlashes(baseUrl), Headers(Authorization(config).value))
    {
      var authorization := Authorization(config);
      if authorization.Failure? {
        return Failure(authorization.error);
      }
      var c := new VaraSMSClient.Open(baseUrl, authorization.value);
      return Success(c);
    }

    /** `sendSMS($to, $message, $senderId, $reference)`. */
    method SendSms(to: Recipients, message: string, senderId: Option<string>, reference: Option<string>, settings: Settings, send: (Transport, Request) -> Exchange)
      returns (r: Result<Value, Thrown>)
      ensures r == Complete(SendSmsFailure, SendSmsRequest(to, message, senderId, reference, settings), client, send)
    {
      var problem := FirstBadNumber(Numbers(to));
      if problem.Some? {
        return Rejected(problem.value);
      }
      var payload := SmsPayload(to, message, senderId, reference, settings);
      var endpoint := if settings.testMode then TestSinglePath else LiveSinglePath;
      r := Complete(SendSmsFailure, Success(Request(POST, endpoint, Json(payload))), client, send);
    }

    /** `sendBulkSMS($messages, $senderId, $reference)`. */
    method SendBulkSms(messages: seq<BulkMessage>, senderId: Option<string>, reference: Option<string>, settings: Settings, send: (Transport, Request) -> Exchange)
      returns (r: Result<Value, Thrown>)
      ensures r == Complete(SendBulkSmsFailure, Success(BulkSmsRequest(messages, senderId, reference, settings)), client, send)
    {
      var items := seq(|messages|, i requires 0 <= i < |messages| => BulkItem(messages[i], senderId, settings));
      r := Complete(SendBulkSmsFailure, Success(Request(POST, LiveMultiPath, Json([Entry("messages", List(items))]))), client, send);
    }

    /** `getBalance()`. */
    method GetBalance(send: (Transport, Request) -> Exchange) returns (r: Result<Value, Thrown>)
      ensures r == Complete(BalanceFailure, Success(BalanceRequest()), client, send)
    {
      r := Complete(BalanceFailure, Success(Request(GET, BalancePath, NoBody)), client, send);
    }

    /** `rechargeCustomer($email, $smsCount)`. */
    method RechargeCustomer(email: string, smsCount: int, send: (Transport, Request) -> Exchange) returns (r: Result<Value, Thrown>)
      ensures r == Complete(RechargeFailure, Success(RechargeRequest(email, smsCount)), client, send)
    {
      var body := [Entry("email", Str(email)), Entry("smscount", Int(smsCount))];
      r := Complete(RechargeFailure, Success(Request(POST, RechargePath, Json(body))), client, send);
    }

    /** `deductCustomer($email, $smsCount)`. */
    method DeductCustomer(email: string, smsCount: int, send: (Transport, Request) -> Exchange) returns (r: Result<Value, Thrown>)
      ensures r == Complete(DeductFailure, Success(DeductRequest(email, smsCount)), client, send)
    {
      var body := [Entry("email", Str(email)), Entry("smscount", Int(smsCount))];
      r := Complete(DeductFailure, Success(Request(POST, DeductPath, Json(body))), client, send);
    }

    /** `getDeliveryReports()`. */
    method GetDeliveryReports(send: (Transport, Request) -> Exchange) returns (r: Result<Value, Thrown>)
      ensures r == Complete(ReportsFailure, Success(ReportsRequest()), client, send)
    {
      r := Complete(ReportsFailure, Success(Request(GET, ReportsPath, NoBody)), client, send);
    }

    /** `getDeliveryReport($messageId)`. */
    method GetDeliveryReport(messageId: string, send: (Transport, Request) -> Exchange) returns (r: Result<Value, Thrown>)
      ensures r == Complete(ReportFailure, Success(ReportRequest(messageId)), client, send)
    {
      r := Complete(ReportFailure, Success(Request(GET, ReportsPath, Query([Entry("messageId", Str(messageId))]))), client, send);
    }

    /** `getDeliveryReportsByDateRange($sentSince, $sentUntil)`. */
    method GetDeliveryReportsByDateRange(sentSince: string, sentUntil: string, send: (Transport, Request) -> Exchange) returns (r: Result<Value, Thrown>)
      ensures r == Complete(ReportsByDateRangeFailure, ReportsByDateRangeRequest(sentSince, sentUntil), client, send)
    {
      if !IsValidDate(sentSince) || !IsValidDate(sentUntil) {
        return Rejected(DateRangeFormat);
      }
      var query := [Entry("sentSince", Str(sentSince)), Entry("sentUntil", Str(sentUntil))];
      r := Complete(ReportsByDateRangeFailure, Success(Request(GET, ReportsPath, Query(query))), client, send);
    }

    /** `getSMSLogs($filters)`. */
    method GetSmsLogs(filters: LogFilter, send: (Transport, Request) -> Exchange) returns (r: Result<Value, Thrown>)
      ensures r == Complete(SmsLogsFailure, SmsLogsRequest(filters), client, send)
    {
      if filters.sentSince.Some? && !IsValidDate(filters.sentSince.value) {
        return Rejected(SentSinceFormat);
      }
      if filters.sentUntil.Some? && !IsValidDate(filters.sentUntil.value) {
        return Rejected(SentUntilFormat);
      }
      if filters.to.Some? && !IsPhone(filters.to.value) {
        return Rejected(PhoneFormat);
      }
      if filters.limit.Some? && filters.limit.value > 500 {
        return Rejected(LimitTooHigh);
      }
      r := Complete(SmsLogsFailure, Success(Request(GET, LogsPath, Query(LogQuery(filters)))), client, send);
    }

    /** `registerSubCustomer($customerData)`; `isEmail` stands for
        `filter_var(..., FILTER_VALIDATE_EMAIL)`. The phone number is
        rewritten in the customer data before the remaining checks. */
    method RegisterSubCustomer(customerData: seq<Entry>, isEmail: string -> bool, send: (Transport, Request) -> Exchange) returns (r: Result<Value, Thrown>)
      ensures r == Complete(RegisterSubCustomerFailure, RegisterSubCustomerRequest(customerData, isEmail), client, send)
    {
      var missing := FirstMissingField(customerData);
      if missing.Some? {
        return Rejected(missing.value);
      }
      var email := Field(customerData, "email");
      if !(email.Str? && isEmail(email.s)) {
        return Rejected(InvalidEmail);
      }
      assert EmailAccepted(customerData, isEmail);
      var phone := Field(customerData, "phone_number");
      if !phone.Str? {
        return Rejected(LocalPhoneFormat);
      }
      var number := phone.s;
      if |number| > 0 && number[0] == '0' {
        number := "255" + number[1..];
      }
      assert number == LocalToInternational(phone.s);
      if !IsPhone(number) {
        return Rejected(LocalPhoneFormat);
      }
      assert PhoneAccepted(customerData);
      var data := Put(customerData, "phone_number", Str(number));
      PutLeavesOthers(customerData, "phone_number", Str(number), "account_type");
      PutLeavesOthers(customerData, "phone_number", Str(number), "sms_price");
      if !IsAccountType(Field(data, "account_type")) {
        return Rejected(AccountTypeInvalid);
      }
      if !IsPositivePrice(Field(data, "sms_price")) {
        return Rejected(PriceNotPositive);
      }
      r := Complete(RegisterSubCustomerFailure, Success(Request(POST, CreateSubCustomerPath, Json(data))), client, send);
    }

    /** `scheduleSMS($to, $message, $date, $time, $senderId, $recurring)`. */
    method ScheduleSms(to: string, message: string, date: string, time: string, senderId: Option<string>, recurring: Option<Recurrence>, settings: Settings, send: (Transport, Request) -> Exchange)
      returns (r: Result<Value, Thrown>)
      ensures r == Complete(ScheduleSmsFailure, ScheduleSmsRequest(to, message, date, time, senderId, recurring, settings), client, send)
    {
      if !IsPhone(to) {
        return Rejected(PhoneFormat);
      }
      if !IsValidDate(date) {
        return Rejected(ScheduleDateFormat);
      }
      if !IsTime(time) {
        return Rejected(ScheduleTimeFormat);
      }
      if recurring.Some? {
        var problem := RecurrenceProblem(recurring.value);
        if problem.Some? {
          return Rejected(problem.value);
        }
      }
      var payload := SchedulePayload(to, message, date, time, senderId, recurring, settings);
      r := Complete(ScheduleSmsFailure, Success(Request(POST, LiveSinglePath, Json(payload))), client, send);
    }

    /** `sendMultipleMessages($messages, $reference)`. */
    method SendMultipleMessages(messages: seq<MultiMessage>, reference: Option<string>, settings: Settings, send: (Transport, Request) -> Exchange)
      returns (r: Result<Value, Thrown>)
      ensures r == Complete(SendMultipleFailure, SendMultipleRequest(messages, reference, settings), client, send)
    {
      var problem := FirstBadMessage(messages);
      if problem.Some? {
        return Rejected(problem.value);
      }
      var payload := ArrayFilter([Entry("messages", List(FormatMessages(messages, settings))), Entry("reference", StrOrNull(reference))]);
      var endpoint := if settings.testMode then TestMultiPath else LiveMultiPath;
      r := Complete(SendMultipleFailure, Success(Request(POST, endpoint, Json(payload))), client, send);
    }
  }
}
