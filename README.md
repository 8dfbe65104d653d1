# WebhookGoom request handling, in Dafny

This project models the decision logic of the WebhookGoom relay (`server.js`).
The relay receives Airtable change notifications on `POST /webhook/airtable`
and forwards the email of every record whose "Contrat abonnement signe"
field became non-empty to the Goom validation gateway. The project then
proves what the relay answers and what it forwards.

Modules:

- `Wrappers` (`wrappers.dfy`): `Option` and `Result`.
- `Js` (`js.dfy`): the JavaScript semantics the handler relies on.
  It defines parsed JSON values, with `Undefined` for a missing property.
  It also defines truthiness, `v.key` (which throws a `TypeError` on null or
  undefined), `v?.[key]`, `a || b` and `for...of` (arrays, and strings one
  character at a time). `Printable` says when converting a value to a string
  succeeds.
- `Goom` (`goom.dfy`): `sendToGoom`. The HTTP POST is an oracle, `Gateway`.
  It gives the outcome of the k-th POST of a request: resolved with a status
  and data, or rejected with a message and maybe a response. `ResultOf`
  turns every outcome into a `ForwardResult`. `SendToGoom` adds the failure
  of its own log line and never fails itself.
- `Server` (`server.dfy`): the rest. It holds the configuration as an explicit
  value (`Config`: gateway token and inbound secret, each optional) and the
  inbound secret check. It holds the `/webhook/airtable` handler
  (`HandleWebhook`, a method) and the `changedRecords` loop
  (`ProcessChangedRecords`, a method with an accumulator, proved equal to
  the recursive specification `RunBatch`). It also holds `/test/goom` and
  `/health`.

Every handler returns the response and the ordered sequence of emails it
handed to the gateway (`Handled.forwards`). "No forward occurs" is therefore
`forwards == []`. The gateway oracle is a parameter of every contract. No
status code depends on it, so a failed or timed-out forward can never turn a
200 into anything else.

Points where the code behaves differently from what one might expect:

- A direct `{email}` body needs a non-empty string. An empty string goes down
  the `changedRecords` path.
- A null or undefined entry in `changedRecords` is not skipped. Reading its
  `id` throws, and the handler answers 500 with the exception's message. The
  records before it have already been forwarded by then.
- The log lines are template literals, and converting a value to a string
  can throw. A JSON object with its own `toString` key cannot be converted,
  nor can an array holding one (`Js.Printable`). Such a record `id`
  (server.js:117), or such an `Email` of a signed record (server.js:127),
  makes the loop throw, so the answer is 500. In `sendToGoom` the conversion
  (server.js:44) sits inside the `try`. The email is then not posted, and the
  result reports the TypeError.
- The HTTP client rejects non-2xx answers by default. The oracle therefore
  reports them as `Rejected` with a response, which gives `success = false`.
- `/test/goom` has no gateway-token guard. It rejects any falsy `email`, not
  only a missing one.
- The inbound secret is compared only when it is non-empty. An empty secret
  behaves like an unset one.
- A truthy `changedRecords` that is a string is iterated one character at a
  time, and no character is a signed record. Any other truthy value that is
  not an array makes `for...of` throw, and the answer is 500.

## Model

| member | source | states |
|---|---|---|
| `Server.ValidateAirtableWebhook` | server.js:27-39 | With an unset or empty secret every request passes. With a non-empty secret, a missing header or one not strictly equal to it gives 401 `{error: 'Token invalide'}`, and the exact header passes. |
| `Goom.ResultOf` | server.js:51-76 | `success` holds exactly when the POST resolved, and `error` is present exactly when it did not. Status and data come from whatever response there was. |
| `Goom.SendToGoom` | server.js:42-77 | `sendToGoom` never throws. An email that cannot be printed is not posted, and the result is a failure carrying the TypeError's message. Any other email is posted, and the POST's outcome becomes the result. |
| `Server.HandleWebhook` | server.js:80-163 | A rejected secret gives 401 and no forward. An unset or empty gateway token then gives 500 `'Configuration manquante: GOOM_GATEWAY_TOKEN'` before the body is read, and no forward. A non-empty string `email` gives exactly one forward of that email and a 200 echoing it, whatever `changedRecords` holds. A non-iterable `changedRecords` gives 500 with no forward. When every record can be got through, the response is 200. `processedRecords` then equals the length of `results`, which is the number of signed records, and each entry describes its signed record in input order. The forwards are exactly the truthy emails of signed records, in order, each `Sent` entry carrying its own POST's result. Otherwise, let p be the first record that cannot be got through. The response is 500 `'Erreur interne du serveur'` with that record's exception message, after the forwards of the records before p. The status is 200 exactly on the two success paths, for every gateway behaviour. |
| `Server.DirectEmail` | server.js:98 | The body is a direct email exactly when `email` is a non-empty string, and that string is the email. |
| `Server.ChangedRecords` | server.js:113-116 | A falsy `changedRecords` gives no records. An array gives its elements. A string gives records that are all got through and none signed. Every other truthy value throws. |
| `Server.ContractFieldOf` | server.js:120 | The contract field is defined only when `changedFields` is an object holding the key, and it is then that value. |
| `Server.EmailOf` | server.js:121 | The email is defined only when `current` and `current.fields` are objects and `Email` is present, and it is then that value. |
| `Server.Signed` | server.js:123 | Every truthy contract field counts as signed. Of the falsy values, exactly `false` and `0` count too. |
| `Server.Visit` | server.js:117-146 | One iteration throws exactly on a record that is null or undefined, or whose id or (signed, truthy) email cannot be printed. It then changes nothing else. Otherwise it pushes one entry describing the record exactly when the record is signed. It forwards the email exactly when the email is also truthy. |
| `Server.RunBatch` | server.js:116-147 | The loop pushes at most one entry per record and forwards at most one email per entry. |
| `Server.ProcessChangedRecords` | server.js:113-147 | The loop that pushes onto `results` one record at a time yields exactly the batch `RunBatch` specifies. |
| `Server.CleanBatch` | server.js:116-147 | When every record can be got through, the loop completes. `results` has one entry per signed record, in input order. An entry is `{recordId, email, goomResult}` when the record's `current.fields.Email` is truthy, and `{recordId, error: 'Email manquant'}` otherwise. The forwarded emails are exactly the truthy emails of the signed records, in input order. |
| `Server.BatchFailsIffUnprocessable` | server.js:116-147 | The loop throws exactly when some record is null or undefined, has an id that cannot be printed, or is signed with a truthy email that cannot be printed. |
| `Server.BatchFailsAtFirstUnprocessable` | server.js:116-147 | The exception comes from the first record that cannot be got through. Everything the earlier records pushed and forwarded stands. |
| `Server.FailureSticks` | server.js:116-117 | After the exception no later record is visited. |
| `Server.SentMatchesForwards` | server.js:126-136 | The `Sent` entries of `results` and the forwarded emails are the same sequence. The n-th `Sent` entry holds the result of the n-th POST. |
| `Server.TestGoom` | server.js:179-188 | A falsy `email` gives 400 `{error: 'Email requis'}` and no forward. Otherwise the answer is a 200 whose body is `sendToGoom`'s result, and `email` is forwarded once exactly when it can be printed. |
| `Server.Health` | server.js:166-171 | The status is 200 and `status: 'OK'`. `goomConfigured` holds exactly when the gateway token is set and non-empty. |
| `Server.SignedBoundaries` | server.js:120-123 | A record is signed unless its contract field is strictly undefined, null or `''`. `0` and `false` count as signed, and an absent field or `changedFields` does not. |
| `Server.SignedRecordScenario` | server.js:113-154 | One signed record `rec1` with Email `x@y.com` yields one forward of `x@y.com` and a single `Sent` entry. |
| `Server.UnprintableIdScenario` | server.js:117 | A record whose `id` is `{toString: "x"}` makes the loop throw `'Cannot convert object to primitive value'` before anything is pushed or forwarded. |

## Left out

- Middleware and parser setup (helmet, cors, morgan, dotenv): library plumbing. The body parser is reduced to its guarantee that the body is an object or an array (`ParsedBody`).
- The HTTP POST itself: its URL, headers and timeout, and the client's status policy. These are network I/O. The oracle `Gateway` stands for them, and only the payload `{email, action: 'validate_quote'}` is modelled.
- Timeout coercion with `parseInt` and the port selection: environment configuration with no further behaviour.
- The timestamp of `/health`, which depends on the clock.
- The text that logging writes. Its one effect on responses, a template literal throwing on a value it cannot convert, is modelled by `Js.Printable`.
- Express routing: the favicon 204s, the 404 fallback, the global error middleware and `listen`. These are fixed responses or framework behaviour.
- JSON serialisation of responses, such as dropping undefined fields: the response bodies are datatypes.
- Inherited properties in explicit reads: `Js.Lookup` sees only own properties. No prototype defines the names the handler reads explicitly, and string conversion's implicit `toString` and `valueOf` lookups are covered by `Js.Printable`.
- Concurrent requests: they share no mutable state.
- Reads of `AIRTABLE_WEBHOOK_SECRET` happen on every request, while the gateway token is read at start-up. Both are one immutable `Config` here, because the environment does not change while the process runs.
