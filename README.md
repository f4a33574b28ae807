# Pipedrive plugin for Kestra: a verified model

This project models the request logic of a Kestra plugin that talks to the
Pipedrive CRM REST API.

From the HTTP client (`client/PipedriveClient.java`), these parts are modelled:

- the retry interceptor;
- URL construction with the API token (`buildUrl`);
- `executeRequest`'s status handling and the decoding of a 2xx body.

The `run` methods of nine tasks are modelled:

- the new-style tasks `deals/Update`, `deals/Create`, `persons/Create` and `persons/Get`;
- the legacy tasks `deals/UpdateDeal`, `deals/CreateDeal`, `notes/AddNote`, `persons/CreatePerson` and `persons/GetPerson`.

Each task model checks the required properties in the source's order and with
its messages. It then builds the request body the way the task's builder
does, and derives the request the task hands to the client. Finally it maps
the decoded reply to the task's output or exception.

Values crossing a foreign boundary are inputs of the model. These are:

- a rendered property, as `Prop`;
- the outcome of each HTTP attempt;
- whether a backoff sleep was interrupted;
- the JSON decoder;
- the storage's answer for STORE.

Modules:

- `Model`: the DTO records and the JSON keys Jackson would write for them
  (`NON_NULL`, so a key per non-null field).
- `Text`: Java's integer and null-string concatenation.
- `Client`: the HTTP client. The retry loop `Intercept` is a method proved
  equal to the recursive specification `Retry`, which the lemmas
  characterise.
- `TaskCommon`: property rendering, required values, builder setters and
  the two generations' success checks.
- `Contacts`: the email and phone map conversion loop shared by both
  person-creation tasks.
- One module per task file.

A builder is modelled as one slot per field, updated by setter calls, with
`build()` as the record constructor. The builders of the legacy tasks
`deals/UpdateDeal`, `deals/CreateDeal` and `persons/CreatePerson` are proved
to produce the body specification of their new-style counterparts
`deals/Update`, `deals/Create` and `persons/Create`, so each pair sends the
same bodies. `notes/AddNote` has no new-style counterpart. The pairs differ in the
at-least-one check, the base URL and the success check, and the lemmas state
those differences.

The client's only base URL constant is `BASE_URL`, `https://api.pipedrive.com/v1`
(client/PipedriveClient.java, line 18). `AbstractPipedriveTask.java` defaults `apiUrl`
to `PipedriveClient.DEFAULT_BASE_URL` (lines 40 and 48), which the client does not
define, so its value is not known; the model uses `BASE_URL` for it. The tests
mount their mock API under `/v2`, passed in as `apiUrl`. No trailing slash is
stripped from a base URL.

## Model

| member | source | states |
|---|---|---|
| Text.NatToStringRoundTrip | src/main/java/io/kestra/plugin/pipedrive/deals/Update.java:190 | the decimal text of a non-negative id reads back as that id |
| Text.IntToStringRoundTrip | src/main/java/io/kestra/plugin/pipedrive/deals/Update.java:190 | the text Java's `+` splices in for an `Integer` id reads back as the id, so distinct ids give distinct paths |
| Text.JavaString | src/main/java/io/kestra/plugin/pipedrive/deals/Update.java:195 | a null error string is concatenated as the text "null", a present one as itself |
| Client.BuildUrl | src/main/java/io/kestra/plugin/pipedrive/client/PipedriveClient.java:155-158 | the URL is base, endpoint, then `&` exactly when the endpoint contains `?` (`?` otherwise), then `api_token=` and the token unencoded |
| Client.BuildUrlQueryAlone | src/main/java/io/kestra/plugin/pipedrive/client/PipedriveClient.java:155-158 | for an endpoint without a query, the URL's first `?` follows base plus endpoint and is followed by the token parameter alone |
| Client.BuildUrlQueryExtended | src/main/java/io/kestra/plugin/pipedrive/client/PipedriveClient.java:155-158 | for an endpoint with a query, the URL's first `?` is the endpoint's, the path before it is untouched, and the token parameter is appended after `&` |
| Client.PersonUrlShape | src/test/java/io/kestra/plugin/pipedrive/persons/GetTest.java:86-87 | the URLs for `/persons/12` and for `/deals?limit=5` with token `token`, character for character |
| Client.Intercept | src/main/java/io/kestra/plugin/pipedrive/client/PipedriveClient.java:41-77 | the interceptor loop's trace (attempts, closed attempts, waits, outcome) equals the recursive specification `Retry`, with between 1 and 3 attempts; the fall-through `return response` is unreachable |
| Client.RetryFromCharacterized | src/main/java/io/kestra/plugin/pipedrive/client/PipedriveClient.java:47-74 | from any attempt on, the run stops at the first decisive attempt (a non-retryable response, the last attempt, or an interrupted backoff), closing and waiting exactly on the status-based retries before it |
| Client.RetryCharacterized | src/main/java/io/kestra/plugin/pipedrive/client/PipedriveClient.java:41-77 | a whole run: the number of attempts, the closed responses, the waits and the final outcome are those of the first decisive attempt |
| Client.RetryWaitSchedule | src/main/java/io/kestra/plugin/pipedrive/client/PipedriveClient.java:55-58 | the waits are one of [], [1000], [2000], [1000, 2000], and they total at most 3000 ms |
| Client.NonRetryableReturnedAtOnce | src/main/java/io/kestra/plugin/pipedrive/client/PipedriveClient.java:52-63 | a first response that is neither 429 nor 5xx is returned after one attempt, nothing closed and no wait |
| Client.LastAttemptNotRetried | src/main/java/io/kestra/plugin/pipedrive/client/PipedriveClient.java:52-69 | when the third attempt is reached, its response is returned unchanged, or its IOException is rethrown as is |
| Client.IoFailureRetriedWithoutWait | src/main/java/io/kestra/plugin/pipedrive/client/PipedriveClient.java:67-72 | an IOException on an attempt before the last, reached with no earlier decisive attempt, is retried: a further attempt is made, no response is closed for it and no backoff follows it |
| Client.BackoffsBeforeOnly | src/main/java/io/kestra/plugin/pipedrive/client/PipedriveClient.java:52-59 | a closed attempt is always an earlier attempt whose response was 429 or 5xx and not the last attempt |
| Client.InterruptStopsRetrying | src/main/java/io/kestra/plugin/pipedrive/client/PipedriveClient.java:64-66 | an interrupt in the backoff after attempt k ends the run with `IOException("Request interrupted")` after k+1 attempts |
| Client.AlwaysRetryableExhaustsAttempts | src/main/java/io/kestra/plugin/pipedrive/client/PipedriveClient.java:47-63 | three retryable responses give three attempts, the first two closed, waits 1000 and 2000, and the third response returned |
| Client.TwoServerErrorsThenSuccess | src/main/java/io/kestra/plugin/pipedrive/client/PipedriveClient.java:41-77 | two 500s then a 200 give three attempts with 3000 ms of waiting and a decoded envelope |
| Client.ExecuteRequest | src/main/java/io/kestra/plugin/pipedrive/client/PipedriveClient.java:139-153 | a 2xx final response yields `Ok` of the decoded envelope exactly when its body decodes, and a decoded envelope comes only from a 2xx response; an interceptor exception exactly as an I/O error; a non-2xx response exactly as a request failure |
| Client.Non2xxCarriesCodeAndBody | src/main/java/io/kestra/plugin/pipedrive/client/PipedriveClient.java:143-147 | a non-2xx response fails with its code and body, a missing body read as "", so the message ends in `<code> - ` |
| Client.DigitsBeforeSeparator | src/main/java/io/kestra/plugin/pipedrive/client/PipedriveClient.java:147 | a run of digits followed by " - " is recovered from the concatenation |
| Client.FailureMessageInjective | src/main/java/io/kestra/plugin/pipedrive/client/PipedriveClient.java:147 | the failure message determines the status code and the body |
| Client.NotFoundFailsAtOnce | src/main/java/io/kestra/plugin/pipedrive/client/PipedriveClient.java:52-147 | a 404 is not retried and fails with code 404 and its body |
| Client.Execute | src/main/java/io/kestra/plugin/pipedrive/client/PipedriveClient.java:82-158 | a call sends the verb to `BuildUrl(base, path, token)` with the body only for POST and PUT, runs the retry loop, and yields `ExecuteRequest` of its outcome |
| TaskCommon.Rendered | src/main/java/io/kestra/plugin/pipedrive/deals/Update.java:142-148 | a property renders to a value only when it is configured and its rendering is present |
| TaskCommon.RenderedElse | src/main/java/io/kestra/plugin/pipedrive/deals/Create.java:154 | the fallback stands in exactly for a configured property that renders to nothing; an unconfigured one stays null |
| TaskCommon.SetIfPresent | src/main/java/io/kestra/plugin/pipedrive/deals/Update.java:154-184 | a builder setter behind `if (r != null)`: the slot takes a present value and is otherwise unchanged |
| TaskCommon.SetIfConfigured | src/main/java/io/kestra/plugin/pipedrive/deals/UpdateDeal.java:154-184 | a builder setter behind `if (p != null)`: a configured property sets the slot to its rendering, even null |
| TaskCommon.SetIfConfiguredElse | src/main/java/io/kestra/plugin/pipedrive/deals/CreateDeal.java:184-186 | the same setter with `orElse(fallback)` for a rendering that is empty |
| TaskCommon.Require | src/main/java/io/kestra/plugin/pipedrive/AbstractPipedriveTask.java:42-45 | a required property is accepted exactly when it renders to a value, otherwise IllegalArgumentException with the given message |
| TaskCommon.RenderApiUrl | src/main/java/io/kestra/plugin/pipedrive/AbstractPipedriveTask.java:47-49 | the rendered API URL, or the default base URL when it renders to nothing |
| TaskCommon.CheckStrict | src/main/java/io/kestra/plugin/pipedrive/deals/Update.java:194-198 | `!Boolean.TRUE.equals(success)`: accepted exactly for success TRUE with data present; false or missing success gives IllegalStateException with the prefix and the error ("null" when absent); absent data a NullPointerException |
| TaskCommon.CheckUnboxed | src/main/java/io/kestra/plugin/pipedrive/deals/UpdateDeal.java:193-197 | unboxed `!getSuccess()`: missing success is a NullPointerException, false a RuntimeException with the prefix and error, true with absent data a NullPointerException |
| TaskCommon.SuccessChecksCompared | src/main/java/io/kestra/plugin/pipedrive/deals/UpdateDeal.java:193-195 | the two generations accept the same envelopes with the same data and differ only in the exception for a false or missing success |
| TaskCommon.RequestFailurePropagates | src/main/java/io/kestra/plugin/pipedrive/client/PipedriveClient.java:145-147 | a failed request reaches the caller of either generation unchanged |
| Contacts.CastString | src/main/java/io/kestra/plugin/pipedrive/persons/Create.java:156-158 | a `(String)` cast: null stays null, a string passes, anything else is a ClassCastException |
| Contacts.CastBool | src/main/java/io/kestra/plugin/pipedrive/persons/Create.java:157 | a `(Boolean)` cast: null stays null, a boolean passes, anything else is a ClassCastException |
| Contacts.ToContact | src/main/java/io/kestra/plugin/pipedrive/persons/Create.java:155-159 | one entry: value is `get("value")`, primary defaults to false and label to "work" only when the key is absent; a wrong-typed value fails the cast; both directions of when it succeeds |
| Contacts.Converted | src/main/java/io/kestra/plugin/pipedrive/persons/Create.java:153-160 | the converted list has the entries' length and the conversion of each entry at the same index |
| Contacts.MapContacts | src/main/java/io/kestra/plugin/pipedrive/persons/Create.java:152-162 | the `for` loop succeeds exactly when every entry converts, then yields the converted list in order, and otherwise ends in ClassCastException |
| Contacts.ConvertOptional | src/main/java/io/kestra/plugin/pipedrive/persons/Create.java:152-174 | an unconfigured list stays null; a configured one is converted or fails with ClassCastException |
| Contacts.FirstValue | src/main/java/io/kestra/plugin/pipedrive/persons/GetPerson.java:93-96 | the first entry's value for a non-empty list, null for a missing or empty one |
| Contacts.WorkEmailEntry | src/test/java/io/kestra/plugin/pipedrive/persons/CreateTest.java:72-73 | the test's email entry, every key given, converts to value, primary true and label "work" |
| Contacts.BareValueEntry | src/main/java/io/kestra/plugin/pipedrive/persons/Create.java:155-159 | an entry with only a value gets primary false and label "work" |
| Contacts.NullPrimaryIsKept | src/main/java/io/kestra/plugin/pipedrive/persons/Create.java:157 | a `primary` key present with null is kept as null, not replaced by false |
| DealsUpdate.Body | src/main/java/io/kestra/plugin/pipedrive/deals/Update.java:152-186 | the update body never carries id, currency, person, organisation or user |
| DealsUpdate.BodyKeys | src/main/java/io/kestra/plugin/pipedrive/deals/Update.java:152-186 | the serialised keys are exactly the updatable fields whose renderings are present, within the update list |
| DealsUpdate.BodyValues | src/main/java/io/kestra/plugin/pipedrive/deals/Update.java:142-184 | each field of the body is the rendering of its property |
| DealsUpdate.ConfiguredButEmptyTitle | src/main/java/io/kestra/plugin/pipedrive/deals/Update.java:137-154 | a title configured but rendering empty passes the at-least-one check and the body is then empty |
| DealsUpdate.AssembleBody | src/main/java/io/kestra/plugin/pipedrive/deals/Update.java:151-186 | the builder's conditional setters produce `Body` |
| DealsUpdate.DealPath | src/main/java/io/kestra/plugin/pipedrive/deals/Update.java:190 | the path is `/deals/` followed by text that reads back as the id |
| DealsUpdate.Finish | src/main/java/io/kestra/plugin/pipedrive/deals/Update.java:194-205 | the output copies id and update time from the data of an envelope the strict check accepts, and otherwise fails as that check does |
| DealsUpdate.Run | src/main/java/io/kestra/plugin/pipedrive/deals/Update.java:128-207 | token, then deal id, then at-least-one-configured are checked in order with their messages; the client is built and closed, and a PUT of `Body` sent to the deal path, exactly when all pass |
| DealsUpdate.UpdateScenario | src/test/java/io/kestra/plugin/pipedrive/deals/UpdateTest.java:62-81 | the test's value and status body has exactly those keys, and the reply yields deal 987 and its update time |
| UpdateDeal.AssembleBody | src/main/java/io/kestra/plugin/pipedrive/deals/UpdateDeal.java:151-186 | the legacy setters, guarded by configuration, build the same body as the new task |
| UpdateDeal.Finish | src/main/java/io/kestra/plugin/pipedrive/deals/UpdateDeal.java:193-206 | the output copies id, title, value and status from accepted data; errors as the unboxed check |
| UpdateDeal.Run | src/main/java/io/kestra/plugin/pipedrive/deals/UpdateDeal.java:139-210 | token and id are required in order; then, with no at-least-one check, a PUT to the deal path on the default base URL; `finally` closes the client |
| UpdateDeal.NoChangesStillSent | src/main/java/io/kestra/plugin/pipedrive/deals/UpdateDeal.java:151-190 | with nothing configured the legacy task sends a body with no keys |
| DealsCreate.Body | src/main/java/io/kestra/plugin/pipedrive/deals/Create.java:153-213 | the title is always set, and a configured currency that renders empty becomes "USD" |
| DealsCreate.BodyKeys | src/main/java/io/kestra/plugin/pipedrive/deals/Create.java:165-213 | the keys are the title always, the currency exactly when configured, each other optional field exactly when it renders, and never `lost_reason` or server fields |
| DealsCreate.BodyValues | src/main/java/io/kestra/plugin/pipedrive/deals/Create.java:153-211 | each optional field of the body is its rendering |
| DealsCreate.TitleOnlyBody | src/main/java/io/kestra/plugin/pipedrive/deals/Create.java:165-213 | with no optional property configured, the body is the title alone |
| DealsCreate.AssembleBody | src/main/java/io/kestra/plugin/pipedrive/deals/Create.java:165-213 | the builder's conditional setters produce `Body` |
| DealsCreate.Finish | src/main/java/io/kestra/plugin/pipedrive/deals/Create.java:221-233 | the output copies id, add and update time from accepted data; errors as the strict check |
| DealsCreate.Run | src/main/java/io/kestra/plugin/pipedrive/deals/Create.java:144-235 | token then title are required in order; the client is built and closed, and a POST of `Body` to `/deals` sent, exactly when both are present |
| DealsCreate.CreateScenario | src/test/java/io/kestra/plugin/pipedrive/deals/CreateTest.java:62-82 | the test's title, value, "EUR" and stage 2 give exactly those keys, and the reply yields deal 321 and its times |
| CreateDeal.AssembleBody | src/main/java/io/kestra/plugin/pipedrive/deals/CreateDeal.java:176-224 | the legacy setters, guarded by configuration and with "USD" for an empty currency, build the body of the new task |
| CreateDeal.Finish | src/main/java/io/kestra/plugin/pipedrive/deals/CreateDeal.java:231-245 | the output echoes id, title, value, currency and status from accepted data; errors as the unboxed check |
| CreateDeal.Run | src/main/java/io/kestra/plugin/pipedrive/deals/CreateDeal.java:164-249 | token then title are required before the client is built; a POST to `/deals` on the default base URL; `finally` closes the client |
| CreateDeal.MissingSuccessUnboxed | src/main/java/io/kestra/plugin/pipedrive/deals/CreateDeal.java:231 | a created deal without `success` is a NullPointerException here and an IllegalStateException with the server's error in the new task |
| AddNote.Body | src/main/java/io/kestra/plugin/pipedrive/notes/AddNote.java:134-162 | the content is always set and no server-set field is |
| AddNote.BodyKeys | src/main/java/io/kestra/plugin/pipedrive/notes/AddNote.java:134-162 | the keys are the content always, an attachment exactly when it renders, a pin flag exactly when configured |
| AddNote.BodyValues | src/main/java/io/kestra/plugin/pipedrive/notes/AddNote.java:138-160 | deal, person and organisation ids are their properties' renderings, and each pin flag its rendering or false when it renders empty |
| AddNote.EmptyPinIsFalse | src/main/java/io/kestra/plugin/pipedrive/notes/AddNote.java:150-160 | each of the three pin flags, configured but rendering empty, is sent as false; one that renders is sent as rendered |
| AddNote.AssembleBody | src/main/java/io/kestra/plugin/pipedrive/notes/AddNote.java:134-162 | the builder's conditional setters produce `Body` |
| AddNote.Finish | src/main/java/io/kestra/plugin/pipedrive/notes/AddNote.java:169-183 | the output copies id, content, deal, person and organisation from accepted data; errors as the unboxed check |
| AddNote.Run | src/main/java/io/kestra/plugin/pipedrive/notes/AddNote.java:122-187 | token then content are required in order; a POST to `/notes` on the default base URL; the client is closed exactly when it was built |
| AddNote.NoteOnDeal | src/main/java/io/kestra/plugin/pipedrive/notes/AddNote.java:134-183 | a note on one deal has keys content and deal id, and the echoed note is copied to the output |
| PersonsCreate.Body | src/main/java/io/kestra/plugin/pipedrive/persons/Create.java:138-180 | the body exists exactly when every configured email and phone entry converts, otherwise ClassCastException; it carries the name |
| PersonsCreate.BodyKeys | src/main/java/io/kestra/plugin/pipedrive/persons/Create.java:138-180 | the keys are the name always, an id or the visibility exactly when it renders, a list or the custom fields exactly when configured |
| PersonsCreate.BodyValues | src/main/java/io/kestra/plugin/pipedrive/persons/Create.java:139-177 | the organisation, owner, visibility and custom fields in the body are the configured properties' renderings, each in its own field |
| PersonsCreate.BodyContacts | src/main/java/io/kestra/plugin/pipedrive/persons/Create.java:152-174 | the lists in the body are the configured ones converted, entry for entry, same length |
| PersonsCreate.AssembleBody | src/main/java/io/kestra/plugin/pipedrive/persons/Create.java:137-180 | the builder with its two conversion loops produces `Body`, or its ClassCastException |
| PersonsCreate.Finish | src/main/java/io/kestra/plugin/pipedrive/persons/Create.java:188-200 | the output copies id, add and update time from accepted data; errors as the strict check |
| PersonsCreate.Run | src/main/java/io/kestra/plugin/pipedrive/persons/Create.java:121-202 | token then name are required in order; the client is built and closed exactly when both are present; the POST to `/persons` is sent exactly when the body can be built |
| PersonsCreate.CreateScenario | src/test/java/io/kestra/plugin/pipedrive/persons/CreateTest.java:66-95 | the test's body has keys name, organisation, visibility, emails and phones, organisation 123, visibility "3", no owner, the given contact entries, and the reply yields person 55 and its times |
| PersonsCreate.WrongPrimaryFails | src/main/java/io/kestra/plugin/pipedrive/persons/Create.java:157 | an email entry with a non-boolean `primary` fails the whole body with ClassCastException |
| CreatePerson.AssembleBody | src/main/java/io/kestra/plugin/pipedrive/persons/CreatePerson.java:147-196 | the legacy builder, setters guarded by configuration, gives the body of the new task |
| CreatePerson.Finish | src/main/java/io/kestra/plugin/pipedrive/persons/CreatePerson.java:203-216 | the output copies id and name and takes the first email's value, null for a missing or empty list; errors as the unboxed check |
| CreatePerson.Run | src/main/java/io/kestra/plugin/pipedrive/persons/CreatePerson.java:134-220 | token then name are required before the client is built; `finally` closes it; the POST to `/persons` on the default base URL is sent exactly when the body can be built |
| CreatePerson.EchoedEmail | src/main/java/io/kestra/plugin/pipedrive/persons/CreatePerson.java:214-215 | the echoed email is the first entry's value, and null without a list |
| PersonsGet.PersonPath | src/main/java/io/kestra/plugin/pipedrive/persons/Get.java:87 | the path is `/persons/` followed by text that reads back as the id |
| PersonsGet.EffectiveFetchType | src/main/java/io/kestra/plugin/pipedrive/persons/Get.java:99 | the rendered fetch type, FETCH_ONE when it renders to nothing |
| PersonsGet.Shape | src/main/java/io/kestra/plugin/pipedrive/persons/Get.java:101-125 | STORE gives the stored URI and the written count (0 when null); FETCH gives `[person]`; FETCH_ONE and the default give the person; every branch but STORE has count 1 |
| PersonsGet.FetchedPersonReturned | src/main/java/io/kestra/plugin/pipedrive/persons/Get.java:113-124 | outside STORE, the fetched person is returned exactly once, either alone or as a one-element list |
| PersonsGet.Finish | src/main/java/io/kestra/plugin/pipedrive/persons/Get.java:91-125 | accepted data is shaped by the fetch type; errors as the strict check |
| PersonsGet.FailureIgnoresFetchType | src/main/java/io/kestra/plugin/pipedrive/persons/Get.java:91-99 | a failure does not depend on the fetch type, which is read only after the success check |
| PersonsGet.Run | src/main/java/io/kestra/plugin/pipedrive/persons/Get.java:75-127 | token then person id are required in order; exactly then a GET with no body to the person path, closed by try-with-resources |
| PersonsGet.StoreScenario | src/test/java/io/kestra/plugin/pipedrive/persons/GetTest.java:86-98 | the test's URL ends in `/persons/12?api_token=token`, and STORE with one record written yields the URI and count 1 |
| GetPerson.Flatten | src/main/java/io/kestra/plugin/pipedrive/persons/GetPerson.java:88-99 | the output copies the scalar fields and takes the first email's and first phone's values, null for missing or empty lists |
| GetPerson.Finish | src/main/java/io/kestra/plugin/pipedrive/persons/GetPerson.java:80-99 | accepted data is flattened; errors as the unboxed check |
| GetPerson.Run | src/main/java/io/kestra/plugin/pipedrive/persons/GetPerson.java:63-103 | token then id are required before the client is built; a GET to the person path on the default base URL; `finally` closes the client |
| GetPerson.SameAcceptedPerson | src/main/java/io/kestra/plugin/pipedrive/persons/GetPerson.java:80-99 | the legacy and new lookups accept the same replies, and the legacy output flattens the person the new task returns under FETCH_ONE |

## Left out

- OkHttp transport: timeouts, connection handling and `close()`'s
  executor shutdown are foreign resource management. Each task records only
  whether it closes the client.
- Real time: `Thread.sleep` is a recorded wait. `Math.pow(2, n)` is the
  integer `Pow2`, which is exact for the two exponents reached.
- Jackson: the body is a record with the JSON keys of its non-null
  fields, and the envelope is already decoded (`decode` is a parameter).
- Unknown-field handling and `additional_data` are not modelled.
- Kestra rendering, templating, secrets and logging: a rendered property is an input.
  A configured map or list property (`asMap`, `asList`: custom fields, email
  and phone lists) is taken always to render to a value, never to null.
- `executeRequest`: the IOException that `response.body().string()` can throw
  at line 143 is not modelled. It is raised outside the interceptor, so it
  would not be retried; in the model a response body is always readable.
- `executeRequest`: `readValue` returns null for the JSON body `null`. The
  model's `decode` has no null-envelope result; in the source every task would
  then fail with a NullPointerException at its success check.
- `retryInterceptor`: `Thread.currentThread().interrupt()` at line 65, which
  restores the thread's interrupt flag before "Request interrupted" is thrown,
  is not modelled; the model has no thread state.
- `Client.Intercept`: attempt outcomes and interrupts are functions from the
  attempt number, not a list, so that no length precondition is needed;
  attempts past the third are never consulted.
- STORE in persons/Get.java: writing the temporary file and the
  storage upload are I/O. The storage's URI and written count are inputs.
- `value` and `probability`: BigDecimal and Double payloads are opaque text.
- Ids: Java's 32-bit `Integer` range is not modelled, and ids are unbounded.
- Deal fields no task sets or reads (pipeline, owner names and the like)
  are not part of the `Deal` record. The same holds for Person and Note.
- The new-style tasks construct the client with a base URL and refer to
  `PipedriveClient.DEFAULT_BASE_URL`. client/PipedriveClient.java has
  neither; it has only a two-argument constructor and `BASE_URL`. The model
  gives `BuildUrl` the base as a parameter and uses `BASE_URL` as the default.
- The legacy person tasks call `email(...)`, `phone(...)`, `getEmail()` and `getPhone()`,
  which `Person` does not declare. The model maps these calls onto
  `emails` and `phones`.
- A null element inside a configured email or phone list is not modelled.
  The Java loop would throw on it.
- A rendering failure of a property (a template error) is not modelled.
