/** The request handling of server.js: the inbound secret check, the
    `/webhook/airtable` handler (gateway-token guard, the direct `{email}`
    body, the `changedRecords` loop), `/test/goom` and `/health`.
    Configuration is an explicit value; the gateway is an oracle. */
module Server {
  import opened Wrappers
  import opened Js
  import opened Goom

  const TokenInvalid := "Token invalide"
  const ConfigMissing := "Configuration manquante: GOOM_GATEWAY_TOKEN"
  const Processed := "Webhook traité avec succès"
  const InternalError := "Erreur interne du serveur"
  const EmailMissing := "Email manquant"
  const EmailRequired := "Email requis"
  const ContractFieldName := "Contrat abonnement signe"

  /** The environment: `GOOM_GATEWAY_TOKEN` and `AIRTABLE_WEBHOOK_SECRET`,
      each possibly unset. */
  datatype Config = Config(gatewayToken: Option<string>, webhookSecret: Option<string>)

  /** One entry of `results` in the `changedRecords` response. */
  datatype RecordResult =
    | Sent(recordId: Value, email: Value, goomResult: ForwardResult)
    | MissingEmail(recordId: Value, error: string)

  /** The JSON bodies the routes answer with. */
  datatype Body =
    | ErrorBody(error: string)
    | ErrorWithDetails(error: string, details: string)
    | DirectProcessed(message: string, email: string, goomResult: ForwardResult)
    | BatchProcessed(message: string, processedRecords: nat, results: seq<RecordResult>)
    | HealthBody(status: string, goomConfigured: bool)
    | Forwarded(result: ForwardResult)

  datatype Response = Response(status: nat, body: Body)

  /** A response together with the emails forwarded to the gateway while
      producing it, in the order of the POSTs. */
  datatype Handled = Handled(response: Response, forwards: seq<Value>)

  /** The state of the `changedRecords` loop: the `results` array, the
      emails forwarded so far, and the exception that ended the loop, if any. */
  datatype Batch = Batch(results: seq<RecordResult>, forwards: seq<Value>, failure: Option<JsError>)

  /** An environment variable in a boolean context: set and not empty. */
  predicate IsSet(v: Option<string>) {
    v.Some? && v.value != ""
  }

  /** The body parser only ever yields an object or an array. */
  predicate ParsedBody(body: Value) {
    body.Obj? || body.Arr?
  }

  /** The middleware `validateAirtableWebhook`: `None` passes the request
      on, `Some` is the response that ends it. */
  function ValidateAirtableWebhook(secret: Option<string>, header: Option<string>): (rejection: Option<Response>)
    ensures secret.None? || secret == Some("") ==> rejection.None?
    ensures IsSet(secret) && header == secret ==> rejection.None?
    ensures IsSet(secret) && (header.None? || header.value != secret.value)
            ==> rejection == Some(Response(401, ErrorBody(TokenInvalid)))
  {
    if IsSet(secret) && header != secret then Some(Response(401, ErrorBody(TokenInvalid))) else None
  }

  /** The handler body runs past the secret check and the token guard. */
  predicate Reached(cfg: Config, header: Option<string>) {
    ValidateAirtableWebhook(cfg.webhookSecret, header).None? && IsSet(cfg.gatewayToken)
  }

  /** `req.body.email && typeof req.body.email === 'string'`: a non-empty
      string. An empty string, or any other type, is not a direct email. */
  function DirectEmail(body: Value): (r: Option<string>)
    ensures r.Some? <==> Lookup(body, "email").Str? && Lookup(body, "email").s != ""
    ensures r.Some? ==> r.value == Lookup(body, "email").s
  {
    var email := Lookup(body, "email");
    if Truthy(email) && email.Str? then Some(email.s) else None
  }

  /** `for (const record of req.body.changedRecords || [])`: the records the
      loop visits, or the TypeError it throws. */
  function ChangedRecords(body: Value): (r: Result<seq<Value>, JsError>)
    ensures !Truthy(Lookup(body, "changedRecords")) ==> r == Success([])
    ensures r.Failure? <==> Truthy(Lookup(body, "changedRecords"))
                            && !(Lookup(body, "changedRecords").Arr? || Lookup(body, "changedRecords").Str?)
    ensures Lookup(body, "changedRecords").Arr? ==> r == Success(Lookup(body, "changedRecords").items)
    ensures Lookup(body, "changedRecords").Str? ==>
              r.Success? && forall i :: 0 <= i < |r.value| ==> Processable(r.value[i]) && !Signed(r.value[i])
  {
    Iterate(Or(Lookup(body, "changedRecords"), Arr([])), "changedRecords")
  }

  /** `record.changedFields?.['Contrat abonnement signe']` (record not
      nullish): defined only when `changedFields` is an object holding the key. */
  function ContractFieldOf(record: Value): (r: Value)
    ensures r != Undefined ==> Lookup(record, "changedFields").Obj?
                               && ContractFieldName in Lookup(record, "changedFields").props
                               && r == Lookup(record, "changedFields").props[ContractFieldName]
    ensures Lookup(record, "changedFields").Obj? && ContractFieldName in Lookup(record, "changedFields").props
            ==> r == Lookup(record, "changedFields").props[ContractFieldName]
  {
    OptGet(Lookup(record, "changedFields"), ContractFieldName)
  }

  /** `record.current?.fields?.['Email']` (record not nullish): defined only
      when `current` and `current.fields` are objects and the key is there. */
  function EmailOf(record: Value): (r: Value)
    ensures r != Undefined ==> Lookup(record, "current").Obj?
                               && Lookup(Lookup(record, "current"), "fields").Obj?
                               && "Email" in Lookup(Lookup(record, "current"), "fields").props
                               && r == Lookup(Lookup(record, "current"), "fields").props["Email"]
    ensures Lookup(Lookup(record, "current"), "fields").Obj?
            && "Email" in Lookup(Lookup(record, "current"), "fields").props
            ==> r == Lookup(Lookup(record, "current"), "fields").props["Email"]
  {
    OptGet(OptGet(Lookup(record, "current"), "fields"), "Email")
  }

  /** The contract field is strictly none of undefined, null and "": every
      truthy field counts, and so do the falsy `false` and `0`. */
  predicate Signed(record: Value)
    ensures Truthy(ContractFieldOf(record)) ==> Signed(record)
    ensures !Truthy(ContractFieldOf(record))
            ==> (Signed(record) <==> ContractFieldOf(record) == Bool(false) || ContractFieldOf(record) == Num(0.0))
  {
    var field := ContractFieldOf(record);
    field != Undefined && field != Null && field != Str("")
  }

  /** A record the loop gets through: reading `record.id` does not throw,
      the log lines can print its id and, when it is signed with a truthy
      email, that email. */
  predicate Processable(record: Value) {
    && !Nullish(record)
    && Printable(Lookup(record, "id"))
    && (Signed(record) && Truthy(EmailOf(record)) ==> Printable(EmailOf(record)))
  }

  /** The exception the loop throws on a record it cannot get through. */
  function RecordError(record: Value): JsError
    requires !Processable(record)
  {
    if Nullish(record) then Get(record, "id").error else TypeError(CannotConvert)
  }

  /** A results entry is the one the handler builds for that signed record. */
  predicate Describes(entry: RecordResult, record: Value) {
    && entry.recordId == Lookup(record, "id")
    && (if Truthy(EmailOf(record))
        then entry.Sent? && entry.email == EmailOf(record)
        else entry == MissingEmail(Lookup(record, "id"), EmailMissing))
  }

  /** One iteration of the loop, on a batch that has not failed. It throws
      exactly on a record it cannot get through and then changes nothing
      else; otherwise it pushes one entry describing the record when the
      record is signed, and forwards the email when that is truthy too. */
  function Visit(b: Batch, record: Value, net: Gateway): (r: Batch)
    requires b.failure.None?
    ensures r.failure.None? <==> Processable(record)
    ensures r.failure.Some? ==> r == b.(failure := Some(RecordError(record)))
    ensures r.failure.None? ==>
              && b.results <= r.results
              && |r.results| == |b.results| + (if Signed(record) then 1 else 0)
              && (Signed(record) ==> Describes(r.results[|b.results|], record))
              && r.forwards == b.forwards + (if Signed(record) && Truthy(EmailOf(record)) then [EmailOf(record)] else [])
  {
    match Get(record, "id")
    case Failure(e) => b.(failure := Some(e))
    case Success(id) =>
      if !Printable(id) then b.(failure := Some(TypeError(CannotConvert)))
      else if !Signed(record) then b
      else if !Truthy(EmailOf(record)) then b.(results := b.results + [MissingEmail(id, EmailMissing)])
      else if !Printable(EmailOf(record)) then b.(failure := Some(TypeError(CannotConvert)))
      else
        Batch(b.results + [Sent(id, EmailOf(record), SendToGoom(net, |b.forwards|, EmailOf(record)))],
              b.forwards + [EmailOf(record)], None)
  }

  /** The loop over `records`, one record after the other; an exception
      leaves the rest unvisited. At most one entry per record, at most one
      forward per entry. */
  function RunBatch(records: seq<Value>, net: Gateway): (r: Batch)
    ensures |r.forwards| <= |r.results| <= |records|
    decreases |records|
  {
    if records == [] then Batch([], [], None)
    else
      var prior := RunBatch(records[..|records| - 1], net);
      if prior.failure.Some? then prior else Visit(prior, records[|records| - 1], net)
  }

  /** The `changedRecords` loop: pushes onto `results` and forwards one
      email per signed record with a truthy email, strictly in order. */
  method ProcessChangedRecords(records: seq<Value>, net: Gateway) returns (batch: Batch)
    ensures batch == RunBatch(records, net)
  {
    var results: seq<RecordResult> := [];
    var forwards: seq<Value> := [];
    var i := 0;
    while i < |records|
      invariant 0 <= i <= |records|
      invariant RunBatch(records[..i], net) == Batch(results, forwards, None)
    {
      var record := records[i];
      assert records[..i + 1][..i] == records[..i];
      // the log line `${record.id}` reads and prints the id
      var id := Get(record, "id");
      if id.Failure? {
        FailureSticks(records, i + 1, net);
        return Batch(results, forwards, Some(id.error));
      }
      if !Printable(id.value) {
        FailureSticks(records, i + 1, net);
        return Batch(results, forwards, Some(TypeError(CannotConvert)));
      }
      var contractField := ContractFieldOf(record);
      var emailField := EmailOf(record);
      if contractField != Undefined && contractField != Null && contractField != Str("") {
        if Truthy(emailField) {
          // the log line `${emailField}` prints the email
          if !Printable(emailField) {
            FailureSticks(records, i + 1, net);
            return Batch(results, forwards, Some(TypeError(CannotConvert)));
          }
          var goomResult := SendToGoom(net, |forwards|, emailField);
          results := results + [Sent(id.value, emailField, goomResult)];
          forwards := forwards + [emailField];
        } else {
          results := results + [MissingEmail(id.value, EmailMissing)];
        }
      }
      i := i + 1;
    }
    assert records[..i] == records;
    batch := Batch(results, forwards, None);
  }

  // Reference definitions of what the loop is meant to produce.

  predicate AllProcessable(records: seq<Value>) {
    forall i :: 0 <= i < |records| ==> Processable(records[i])
  }

  /** The signed records, in input order. */
  function SignedRecords(records: seq<Value>): seq<Value> {
    if records == [] then []
    else (if Signed(records[0]) then [records[0]] else []) + SignedRecords(records[1..])
  }

  /** The emails of the signed records whose email is truthy, in input order. */
  function ForwardedEmails(records: seq<Value>): seq<Value> {
    if records == [] then []
    else (if Signed(records[0]) && Truthy(EmailOf(records[0])) then [EmailOf(records[0])] else [])
         + ForwardedEmails(records[1..])
  }

  /** The emails of the `Sent` entries of a results array, in order. */
  function SentEmails(results: seq<RecordResult>): seq<Value> {
    if results == [] then []
    else (if results[0].Sent? then [results[0].email] else []) + SentEmails(results[1..])
  }

  lemma {:induction false} SignedRecordsAppend(records: seq<Value>, x: Value)
    ensures SignedRecords(records + [x]) == SignedRecords(records) + (if Signed(x) then [x] else [])
  {
    if records != [] {
      assert (records + [x])[1..] == records[1..] + [x];
      SignedRecordsAppend(records[1..], x);
    }
  }

  lemma {:induction false} ForwardedEmailsAppend(records: seq<Value>, x: Value)
    ensures ForwardedEmails(records + [x])
         == ForwardedEmails(records) + (if Signed(x) && Truthy(EmailOf(x)) then [EmailOf(x)] else [])
  {
    if records != [] {
      assert (records + [x])[1..] == records[1..] + [x];
      ForwardedEmailsAppend(records[1..], x);
    }
  }

  lemma {:induction false} SentEmailsAppend(results: seq<RecordResult>, r: RecordResult)
    ensures SentEmails(results + [r]) == SentEmails(results) + (if r.Sent? then [r.email] else [])
  {
    if results != [] {
      assert (results + [r])[1..] == results[1..] + [r];
      SentEmailsAppend(results[1..], r);
    }
  }

  /** Once an exception has ended the loop, later records change nothing. */
  lemma {:induction false} FailureSticks(records: seq<Value>, k: nat, net: Gateway)
    requires k <= |records|
    requires RunBatch(records[..k], net).failure.Some?
    ensures RunBatch(records, net) == RunBatch(records[..k], net)
    decreases |records| - k
  {
    if k < |records| {
      var front := records[..|records| - 1];
      assert front[..k] == records[..k];
      FailureSticks(front, k, net);
    } else {
      assert records[..k] == records;
    }
  }

  /** When the loop gets through every record it runs to the end; it pushes
      exactly one entry per signed record, in order, describing that record,
      and forwards exactly the truthy emails of the signed records, in order. */
  lemma {:induction false} CleanBatch(records: seq<Value>, net: Gateway)
    requires AllProcessable(records)
    ensures var b := RunBatch(records, net);
            && b.failure.None?
            && b.forwards == ForwardedEmails(records)
            && |b.results| == |SignedRecords(records)|
            && forall j :: 0 <= j < |b.results| ==> Describes(b.results[j], SignedRecords(records)[j])
  {
    if records != [] {
      var front, last := records[..|records| - 1], records[|records| - 1];
      assert records == front + [last];
      CleanBatch(front, net);
      SignedRecordsAppend(front, last);
      ForwardedEmailsAppend(front, last);
      var prior, b := RunBatch(front, net), RunBatch(records, net);
      forall j | 0 <= j < |b.results|
        ensures Describes(b.results[j], SignedRecords(records)[j])
      {
        if j < |prior.results| {
          assert b.results[j] == prior.results[j];
        }
      }
    }
  }

  /** The loop throws exactly when some record is null or undefined, has an
      id that cannot be printed, or is signed with a truthy email that cannot
      be printed. */
  lemma {:induction false} BatchFailsIffUnprocessable(records: seq<Value>, net: Gateway)
    ensures RunBatch(records, net).failure.Some? <==> !AllProcessable(records)
  {
    if AllProcessable(records) {
      CleanBatch(records, net);
    } else if records != [] {
      var front := records[..|records| - 1];
      if Processable(records[|records| - 1]) {
        assert !AllProcessable(front) by {
          var i :| 0 <= i < |records| && !Processable(records[i]);
          assert front[i] == records[i];
        }
        BatchFailsIffUnprocessable(front, net);
      }
    }
  }

  /** The loop throws at the first record it cannot get through; everything
      the earlier records pushed and forwarded stands. */
  lemma {:induction false} BatchFailsAtFirstUnprocessable(records: seq<Value>, net: Gateway, p: nat)
    requires p < |records| && !Processable(records[p]) && AllProcessable(records[..p])
    ensures RunBatch(records, net)
         == RunBatch(records[..p], net).(failure := Some(RecordError(records[p])))
    decreases |records|
  {
    var front := records[..|records| - 1];
    if p == |records| - 1 {
      CleanBatch(front, net);
    } else {
      assert front[..p] == records[..p];
      BatchFailsAtFirstUnprocessable(front, net, p);
    }
  }

  /** The n-th `Sent` entry carries the result of the n-th POST. */
  predicate SentIndexed(results: seq<RecordResult>, net: Gateway) {
    forall j :: 0 <= j < |results| && results[j].Sent? ==>
      results[j].goomResult == SendToGoom(net, |SentEmails(results[..j])|, results[j].email)
  }

  lemma VisitKeepsSentMatch(prior: Batch, record: Value, net: Gateway)
    requires prior.failure.None?
    requires SentEmails(prior.results) == prior.forwards && SentIndexed(prior.results, net)
    ensures var b := Visit(prior, record, net);
            SentEmails(b.results) == b.forwards && SentIndexed(b.results, net)
  {
    var b := Visit(prior, record, net);
    if |b.results| != |prior.results| {
      var last := b.results[|b.results| - 1];
      assert b.results == prior.results + [last];
      SentEmailsAppend(prior.results, last);
      forall j | 0 <= j < |b.results| && b.results[j].Sent?
        ensures b.results[j].goomResult == SendToGoom(net, |SentEmails(b.results[..j])|, b.results[j].email)
      {
        if j < |prior.results| {
          assert b.results[..j] == prior.results[..j];
        } else {
          assert b.results[..j] == prior.results;
        }
      }
    }
  }

  /** The `Sent` entries and the forwards agree: same emails, same order, and
      the n-th `Sent` entry carries the result of the n-th POST. */
  lemma {:induction false} SentMatchesForwards(records: seq<Value>, net: Gateway)
    ensures var b := RunBatch(records, net);
            SentEmails(b.results) == b.forwards && SentIndexed(b.results, net)
  {
    if records != [] {
      var front := records[..|records| - 1];
      SentMatchesForwards(front, net);
      if RunBatch(front, net).failure.None? {
        VisitKeepsSentMatch(RunBatch(front, net), records[|records| - 1], net);
      }
    }
  }

  /** The `/webhook/airtable` route: `validateAirtableWebhook`, then the
      handler with its try/catch. */
  method HandleWebhook(cfg: Config, header: Option<string>, body: Value, net: Gateway) returns (h: Handled)
    requires ParsedBody(body)
    ensures ValidateAirtableWebhook(cfg.webhookSecret, header).Some?
            ==> h == Handled(Response(401, ErrorBody(TokenInvalid)), [])
    ensures ValidateAirtableWebhook(cfg.webhookSecret, header).None? && !IsSet(cfg.gatewayToken)
            ==> h == Handled(Response(500, ErrorBody(ConfigMissing)), [])
    ensures Reached(cfg, header) && DirectEmail(body).Some? ==>
            var email := DirectEmail(body).value;
            h == Handled(Response(200, DirectProcessed(Processed, email, SendToGoom(net, 0, Str(email)))), [Str(email)])
    ensures Reached(cfg, header) && DirectEmail(body).None? && ChangedRecords(body).Failure? ==>
            h == Handled(Response(500, ErrorWithDetails(InternalError, ChangedRecords(body).error.message)), [])
    ensures Reached(cfg, header) && DirectEmail(body).None? && ChangedRecords(body).Success?
            && AllProcessable(ChangedRecords(body).value) ==>
            var records := ChangedRecords(body).value;
            && h.response.status == 200
            && h.response.body.BatchProcessed?
            && h.response.body.message == Processed
            && h.response.body.processedRecords == |h.response.body.results| == |SignedRecords(records)|
            && (forall j :: 0 <= j < |h.response.body.results| ==>
                  Describes(h.response.body.results[j], SignedRecords(records)[j]))
            && h.forwards == ForwardedEmails(records)
            && SentEmails(h.response.body.results) == h.forwards
            && SentIndexed(h.response.body.results, net)
    ensures Reached(cfg, header) && DirectEmail(body).None? && ChangedRecords(body).Success? ==>
            var records := ChangedRecords(body).value;
            forall p :: 0 <= p < |records| && !Processable(records[p]) && AllProcessable(records[..p]) ==>
              h == Handled(Response(500, ErrorWithDetails(InternalError, RecordError(records[p]).message)),
                           ForwardedEmails(records[..p]))
    ensures h.response.status == 200 <==>
            Reached(cfg, header)
            && (DirectEmail(body).Some? || (ChangedRecords(body).Success? && AllProcessable(ChangedRecords(body).value)))
  {
    var rejection := ValidateAirtableWebhook(cfg.webhookSecret, header);
    if rejection.Some? {
      return Handled(rejection.value, []);
    }
    if !IsSet(cfg.gatewayToken) {
      return Handled(Response(500, ErrorBody(ConfigMissing)), []);
    }
    var direct := DirectEmail(body);
    if direct.Some? {
      var email := direct.value;
      var goomResult := SendToGoom(net, 0, Str(email));
      return Handled(Response(200, DirectProcessed(Processed, email, goomResult)), [Str(email)]);
    }
    var changed := ChangedRecords(body);
    if changed.Failure? {
      return Handled(Response(500, ErrorWithDetails(InternalError, changed.error.message)), []);
    }
    var records := changed.value;
    var batch := ProcessChangedRecords(records, net);
    BatchFailsIffUnprocessable(records, net);
    SentMatchesForwards(records, net);
    if batch.failure.Some? {
      h := Handled(Response(500, ErrorWithDetails(InternalError, batch.failure.value.message)), batch.forwards);
      forall p | 0 <= p < |records| && !Processable(records[p]) && AllProcessable(records[..p])
        ensures h == Handled(Response(500, ErrorWithDetails(InternalError, RecordError(records[p]).message)),
                             ForwardedEmails(records[..p]))
      {
        BatchFailsAtFirstUnprocessable(records, net, p);
        CleanBatch(records[..p], net);
      }
    } else {
      CleanBatch(records, net);
      h := Handled(Response(200, BatchProcessed(Processed, |batch.results|, batch.results)), batch.forwards);
    }
  }

  /** The `/test/goom` route: no gateway-token guard; a truthy `body.email`
      goes to `sendToGoom` once, and is posted unless it cannot be printed. */
  function TestGoom(body: Value, net: Gateway): (h: Handled)
    requires ParsedBody(body)
    ensures !Truthy(Lookup(body, "email")) <==> h.response == Response(400, ErrorBody(EmailRequired))
    ensures |h.forwards| <= 1
    ensures h.forwards != [] <==> Truthy(Lookup(body, "email")) && Printable(Lookup(body, "email"))
    ensures h.forwards != [] ==> h.forwards == [Lookup(body, "email")]
    ensures Truthy(Lookup(body, "email")) ==>
            h.response == Response(200, Forwarded(SendToGoom(net, 0, Lookup(body, "email"))))
  {
    var email := Lookup(body, "email");
    if !Truthy(email) then Handled(Response(400, ErrorBody(EmailRequired)), [])
    else Handled(Response(200, Forwarded(SendToGoom(net, 0, email))),
                 if Printable(email) then [email] else [])
  }

  /** The `/health` route, without its timestamp. */
  function Health(cfg: Config): (r: Response)
    ensures r.status == 200 && r.body.HealthBody? && r.body.status == "OK"
    ensures r.body.goomConfigured <==> cfg.gatewayToken.Some? && |cfg.gatewayToken.value| > 0
  {
    Response(200, HealthBody("OK", IsSet(cfg.gatewayToken)))
  }

  /** The contract field counts as signed unless it is strictly undefined,
      null or ""; 0 and false count. An absent field or `changedFields` is
      undefined. */
  lemma SignedBoundaries(v: Value)
    ensures Signed(Obj(map["changedFields" := Obj(map[ContractFieldName := v])]))
            <==> v != Undefined && v != Null && v != Str("")
    ensures Signed(Obj(map["changedFields" := Obj(map[ContractFieldName := Num(0.0)])]))
    ensures Signed(Obj(map["changedFields" := Obj(map[ContractFieldName := Bool(false)])]))
    ensures !Signed(Obj(map["changedFields" := Obj(map[])]))
    ensures !Signed(Obj(map[]))
  {
  }

  /** One signed record with an email: one forward, one `Sent` entry. */
  lemma SignedRecordScenario(net: Gateway)
    ensures var rec1 := Obj(map["id" := Str("rec1"),
                                "changedFields" := Obj(map[ContractFieldName := Str("2024-01-01")]),
                                "current" := Obj(map["fields" := Obj(map["Email" := Str("x@y.com")])])]);
            RunBatch([rec1], net)
            == Batch([Sent(Str("rec1"), Str("x@y.com"), SendToGoom(net, 0, Str("x@y.com")))], [Str("x@y.com")], None)
  {
  }

  /** A record whose id has its own `toString` key: printing the id throws
      before anything else, even for an otherwise unsigned record. */
  lemma UnprintableIdScenario(net: Gateway)
    ensures RunBatch([Obj(map["id" := Obj(map["toString" := Str("x")])])], net)
            == Batch([], [], Some(TypeError(CannotConvert)))
  {
  }
}
