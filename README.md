# automation-testing-playground: the API client, the test-data validators and the step logger

This project models the core of the automation-testing playground, a Python repository that tests web
applications and public HTTP APIs:

- **The base API client.** It builds URLs and headers, sends each request up to three times, sleeping
  one second between attempts, and re-raises the last transport error. It also provides five
  verification helpers: status code, response time, JSON schema, JSONPath extraction, and "response
  contains". The HTTP transport is a function from the index of a call to its outcome (a response with
  any status, or a transport error). Sleeping is a counter of seconds. The client's log calls are
  recorded as the kind of event each one was.
- **The JSONPlaceholder client.** Its endpoints are fixed paths and `{id}` templates. It has fixed
  payloads for creating and updating a post, one method per endpoint, and the post and user schemas.
  The schemas are modelled as the predicates they denote under JSON Schema draft 2020-12:
  - `type` is in section 6.1.1 of JSON Schema Validation;
  - `required` is in section 6.5.3 of JSON Schema Validation;
  - `properties` is in section 10.3.2.1 of JSON Schema Core.

  An "integer" is an int or an integral float, and never a boolean.
- **The test-data models of the two web applications** (flight booking, and an HR system). These are
  pydantic v2 models. Each field's declared constraints (`min_length`, `max_length`, `pattern`,
  `Literal`) are checked first, then its validator. Building a model either stores normalised
  (stripped, upper-cased) values or reports every rejected field. The Python string behaviour they rely
  on is written out in `Text`: `isspace`, `strip`, `upper`, `int`, `str`.
- **`InlineLogger`.** Its step counter, steps, errors and warnings are fields of a class that its methods
  update in place. `summary` is modelled as the report it prints: step rows, numbered errors and
  warnings, and the verdict.

Files:

| file | module |
|---|---|
| `wrappers.dfy` | `Wrappers` |
| `text.dfy` | `Text` |
| `json.dfy` | `Json` |
| `base_api_client.dfy` | `BaseApiClient` |
| `jsonplaceholder_client.dfy` | `JsonPlaceholderClient` |
| `field_validation.dfy` | `FieldValidation` |
| `blazedemo_models.dfy` | `BlazeDemoModels` |
| `orangehrm_models.dfy` | `OrangeHrmModels` |
| `log_helpers.dfy` | `LogHelpers` |

Where a method changes state, its contract gives the whole new state in terms of specification
functions (`Retry`, `RunEvents`, `WithLastStatus`). The properties the source promises are then
proved about those functions as lemmas.

## Model

| member | source | states |
|---|---|---|
| Text.Strip | src/automation_testing_playground/models/blazedemo_models.py:16-18 | `v.strip()` is empty exactly when `v` is all whitespace (the empty string included); otherwise it starts and ends with a non-whitespace character |
| Text.TrimStart | src/automation_testing_playground/models/blazedemo_models.py:18 | the left half of `strip`: a suffix of the input, everything removed is whitespace, and what is left does not start with whitespace |
| Text.TrimEnd | src/automation_testing_playground/models/blazedemo_models.py:18 | the right half of `strip`: a prefix of the input, everything removed is whitespace, and what is left does not end with whitespace |
| Text.StripIdempotent | src/automation_testing_playground/models/blazedemo_models.py:16-18 | stripping a stripped value changes nothing |
| Text.StripKeepsStripped | src/automation_testing_playground/models/blazedemo_models.py:18 | a string with no whitespace at either end is its own strip |
| Text.StripIgnoresPadding | src/automation_testing_playground/models/blazedemo_models.py:18 | whitespace on either side of a stripped, non-empty core is exactly what `strip` removes |
| Text.TrimStartSkipsPadding | src/automation_testing_playground/models/blazedemo_models.py:18 | leading whitespace before a non-whitespace start is removed and nothing more |
| Text.TrimEndSkipsPadding | src/automation_testing_playground/models/blazedemo_models.py:18 | trailing whitespace after a non-whitespace end is removed and nothing more |
| Text.NatToString | pages/api/jsonplaceholder_client.py:29 | `str(n)` of a natural number is non-empty decimal digits with no leading zero (except "0") and reads back as `n` |
| Text.IntToString | pages/api/jsonplaceholder_client.py:29 | `str(n)` is the canonical decimal text: `NatToString(n)` for `n >= 0`, and `-` followed by `NatToString(-n)` below zero (so no leading zeros and no `-0`); it parses back to `n` |
| Text.Upper | src/automation_testing_playground/models/blazedemo_models.py:46 | `upper` keeps the length and upper-cases each character |
| Text.UpperIdempotent | src/automation_testing_playground/models/blazedemo_models.py:41-46 | upper-casing twice is upper-casing once |
| Json.PyEq | pages/api/base_api_client.py:206 | Python's `==` on JSON values: a number equals only a number of the same value; `null` and a string equal only themselves; a list only a list of the same length, and a dict only a dict with the same keys |
| Json.PyEqReflexive | pages/api/base_api_client.py:206 | every JSON value is `==` to itself under Python's equality |
| Json.PyEqSymmetric | pages/api/base_api_client.py:206 | Python's `==` on JSON values is symmetric |
| Json.PyEqCoarserThanIdentity | pages/api/base_api_client.py:206 | `True == 1` and `1 == 1.0` hold although the values differ |
| Json.HasType | pages/api/jsonplaceholder_client.py:159-168 | the schema `type` keyword: "integer" holds for every int and every float with a zero fractional part, and for nothing that is not a number or that is a boolean |
| BaseApiClient.StripTrailingSlashes | pages/api/base_api_client.py:28 | `rstrip('/')` removes only slashes, all of them at the end, and leaves a prefix of the input |
| BaseApiClient.MergeHeaders | pages/api/base_api_client.py:29 | the headers are the defaults with the caller's keys added or overriding; `None` and `{}` leave the defaults |
| BaseApiClient.EffectiveTimeout | pages/api/base_api_client.py:48-50 | a timeout passed by the caller (even `None`) is kept; otherwise 30 seconds |
| BaseApiClient.JsonBodyFor | pages/api/base_api_client.py:73-89 | a JSON body is attached exactly when the data is a non-empty dict, and it is that dict |
| BaseApiClient.RetryFrom | pages/api/base_api_client.py:55-67 | a retry run from attempt `a` makes more than `a` and at most three calls |
| BaseApiClient.RetryFromFacts | pages/api/base_api_client.py:55-67 | every call before the last raised; the run returns the last call's response, or makes all three calls and re-raises the third error |
| BaseApiClient.RetryReturnsFirstResponse | pages/api/base_api_client.py:55-59 | a returned response comes from the first call that did not raise, after exactly that many calls |
| BaseApiClient.RetryRaisesOnlyWhenAllFail | pages/api/base_api_client.py:61-67 | the request raises exactly when all three calls raise; it then made all three and re-raises the last error |
| BaseApiClient.Client.constructor | pages/api/base_api_client.py:20-32 | the base URL without trailing slashes, the merged headers, and a client that has made no calls |
| BaseApiClient.Client.MakeRequest | pages/api/base_api_client.py:34-67 | sends the same request (base URL + endpoint, headers, timeout, body) once per attempt, sleeps one second after each failed attempt but the last, returns what the retry run gives, and logs a step, a warning per failed call, then a success or a final error |
| BaseApiClient.Client.Get | pages/api/base_api_client.py:69-71 | `_make_request('GET', ...)` with no body |
| BaseApiClient.Client.Post | pages/api/base_api_client.py:73-77 | `_make_request('POST', ...)` with the body rule |
| BaseApiClient.Client.Put | pages/api/base_api_client.py:79-83 | `_make_request('PUT', ...)` with the body rule |
| BaseApiClient.Client.Patch | pages/api/base_api_client.py:85-89 | `_make_request('PATCH', ...)` with the body rule |
| BaseApiClient.Client.Delete | pages/api/base_api_client.py:91-93 | `_make_request('DELETE', ...)` with no body |
| BaseApiClient.StatusCheck | pages/api/base_api_client.py:95-114 | passes exactly when the status is one of the expected codes; success is logged when it passes, an error otherwise |
| BaseApiClient.StatusCheckSingle | pages/api/base_api_client.py:106-109 | a single int behaves as the one-element list: it passes exactly when the status equals it |
| BaseApiClient.ResponseTimeCheck | pages/api/base_api_client.py:116-134 | passes exactly when the elapsed time is at most the limit (5 seconds by default); a slow response is a warning, never an error |
| BaseApiClient.SchemaCheck | pages/api/base_api_client.py:136-157 | passes exactly when the body decodes and conforms; both kinds of failure log an error |
| BaseApiClient.ExtractByJsonPath | pages/api/base_api_client.py:159-184 | no match gives `None` with a warning; one match gives that value; several give the list; a body that does not decode gives `None` with an error |
| BaseApiClient.ExtractionValueIsAmbiguous | pages/api/base_api_client.py:175-180 | "no match" and "one null match" return the same value, as do "one list-valued match" and "several matches"; only the log call distinguishes them |
| BaseApiClient.ExtractionRecoversMatches | pages/api/base_api_client.py:170-184 | from the value and the log call, the matches can be recovered except in the list case |
| BaseApiClient.ContainsAsWrittenRaises | pages/api/base_api_client.py:197-215 | as written, `verify_response_contains` raises `TypeError` on a JSON number, `null`, or a list containing the key |
| BaseApiClient.ContainsAsWrittenOnObjects | pages/api/base_api_client.py:197-215 | on an object body, or one that does not decode, the code as written answers exactly what the corrected check answers |
| BaseApiClient.ContainsAsWritten | pages/api/base_api_client.py:197-215 | the code as written: a body that does not decode answers false, and a `TypeError` arises only from a decoded body that is not an object, while some expected key is still to be checked |
| BaseApiClient.ContainsAsWrittenAgreesWhenItAnswers | pages/api/base_api_client.py:197-215 | on every input where the code as written answers instead of raising, its answer is the corrected one |
| BaseApiClient.ContainsCorrected | pages/api/base_api_client.py:186-215 | the evidently intended check: the body decodes, and it is an object holding every expected key with a Python-equal value, or the expectation is empty |
| BaseApiClient.VerifyResponseContains | pages/api/base_api_client.py:186-215 | passes exactly when `ContainsCorrected` holds, logging success or error; it never raises |
| JsonPlaceholderClient.Format | pages/api/jsonplaceholder_client.py:29 | a formatted endpoint is the template's prefix, then exactly `str(id)`, then its suffix, and the id can be read back from it |
| JsonPlaceholderClient.FormatInjective | pages/api/jsonplaceholder_client.py:29 | different ids give different endpoints |
| JsonPlaceholderClient.PostPayload | pages/api/jsonplaceholder_client.py:37-41 | the create payload has exactly the keys title, body and userId, holding the given values |
| JsonPlaceholderClient.UpdatePayload | pages/api/jsonplaceholder_client.py:50-55 | the update payload is the create payload plus the post's id |
| JsonPlaceholderClient.PayloadsAreSent | pages/api/jsonplaceholder_client.py:42-56 | both payloads are non-empty, so post and put send them as the JSON body |
| JsonPlaceholderClient.PostSchema | pages/api/jsonplaceholder_client.py:159-168 | the post schema: an object with all four of id, title, body and userId, which are an integer, two strings and an integer |
| JsonPlaceholderClient.UserSchema | pages/api/jsonplaceholder_client.py:182-195 | the user schema: an object with id, name, username and email, typed; address and company, when present, are objects; phone and website, when present, are strings |
| JsonPlaceholderClient.VerifyPostSchema | pages/api/jsonplaceholder_client.py:157-178 | passes exactly when the value is an object with the integer id, the string title and body, and the integer userId all present |
| JsonPlaceholderClient.VerifyUserSchema | pages/api/jsonplaceholder_client.py:180-205 | passes exactly when the value is an object with id, name, username and email (typed), and the optional members, when present, of their types |
| JsonPlaceholderClient.PostSchemaIgnoresOtherKeys | pages/api/jsonplaceholder_client.py:159-168 | members outside the four schema keys may be added, changed or removed without changing the verdict |
| JsonPlaceholderClient.PostSchemaNeedsEveryKey | pages/api/jsonplaceholder_client.py:167 | removing any one of the four required keys fails the schema |
| JsonPlaceholderClient.PayloadsSatisfyPostSchema | pages/api/jsonplaceholder_client.py:34-58 | the update payload satisfies the post schema; the create payload does so only once an integer id is added |
| JsonPlaceholderClient.UserSchemaRequiredAndOptional | pages/api/jsonplaceholder_client.py:182-195 | removing a required user key fails the schema; removing an optional one keeps a passing user passing |
| JsonPlaceholderClient.StatusDoesNotGateResult | pages/api/jsonplaceholder_client.py:19-24 | the value returned does not depend on the status: a failing status check still returns the body |
| JsonPlaceholderClient.PlaceholderClient.constructor | pages/api/jsonplaceholder_client.py:14-16 | a base client on the JSONPlaceholder URL with the default headers |
| JsonPlaceholderClient.PlaceholderClient.GetAllPosts | pages/api/jsonplaceholder_client.py:19-24 | a step, one GET of /posts with retries, a check for 200 when a response came, and the decoded body or the error |
| JsonPlaceholderClient.PlaceholderClient.GetPostById | pages/api/jsonplaceholder_client.py:26-32 | the same for /posts/{id} |
| JsonPlaceholderClient.PlaceholderClient.CreatePost | pages/api/jsonplaceholder_client.py:34-44 | POSTs exactly the title, body and userId payload to /posts and checks for 201 |
| JsonPlaceholderClient.PlaceholderClient.UpdatePost | pages/api/jsonplaceholder_client.py:46-58 | PUTs the payload with the id to /posts/{id} and checks for 200 |
| JsonPlaceholderClient.PlaceholderClient.PatchPost | pages/api/jsonplaceholder_client.py:60-66 | PATCHes /posts/{id} with the given fields, and with no JSON body when there are none |
| JsonPlaceholderClient.PlaceholderClient.DeletePost | pages/api/jsonplaceholder_client.py:68-74 | DELETEs /posts/{id} and returns true whatever the status; only a transport error on all three calls escapes |
| JsonPlaceholderClient.PlaceholderClient.GetAllUsers | pages/api/jsonplaceholder_client.py:77-82 | GET /users, checked for 200, decoded |
| JsonPlaceholderClient.PlaceholderClient.GetUserById | pages/api/jsonplaceholder_client.py:84-91 | GET /users/{id}, checked for 200, decoded |
| JsonPlaceholderClient.PlaceholderClient.GetAllComments | pages/api/jsonplaceholder_client.py:93-98 | GET /comments, checked for 200, decoded |
| JsonPlaceholderClient.PlaceholderClient.GetCommentsByPost | pages/api/jsonplaceholder_client.py:100-107 | GET /posts/{post_id}/comments, checked for 200, decoded |
| JsonPlaceholderClient.PlaceholderClient.GetAllAlbums | pages/api/jsonplaceholder_client.py:109-114 | GET /albums, checked for 200, decoded |
| JsonPlaceholderClient.PlaceholderClient.GetAlbumsByUser | pages/api/jsonplaceholder_client.py:116-123 | GET /users/{user_id}/albums, checked for 200, decoded |
| JsonPlaceholderClient.PlaceholderClient.GetAllPhotos | pages/api/jsonplaceholder_client.py:125-130 | GET /photos, checked for 200, decoded |
| JsonPlaceholderClient.PlaceholderClient.GetPhotosByAlbum | pages/api/jsonplaceholder_client.py:132-139 | GET /albums/{album_id}/photos, checked for 200, decoded |
| JsonPlaceholderClient.PlaceholderClient.GetAllTodos | pages/api/jsonplaceholder_client.py:141-146 | GET /todos, checked for 200, decoded |
| JsonPlaceholderClient.PlaceholderClient.GetTodosByUser | pages/api/jsonplaceholder_client.py:148-154 | GET /users/{user_id}/todos, checked for 200, decoded |
| FieldValidation.StrippedNonBlank | src/automation_testing_playground/models/blazedemo_models.py:13-18 | the validator accepts exactly the values that are not all whitespace, and stores their non-empty strip |
| FieldValidation.MinLengthStrippedNonBlank | src/automation_testing_playground/models/blazedemo_models.py:28-39 | `min_length=1` and then the validator: the empty string fails the constraint, whitespace fails the validator, anything else is stored stripped |
| FieldValidation.StrippedValueRevalidates | src/automation_testing_playground/models/blazedemo_models.py:34-39 | a stored value passes the same validation again unchanged |
| FieldValidation.FailedFieldsOf | src/automation_testing_playground/models/blazedemo_models.py:28-46 | a field is reported exactly when it was rejected |
| BlazeDemoModels.NewFlightSearch | src/automation_testing_playground/models/blazedemo_models.py:7-18 | accepted exactly when neither city is all whitespace; stores both stripped; otherwise reports exactly the blank cities |
| BlazeDemoModels.DifferentCities | src/automation_testing_playground/models/blazedemo_models.py:20-22 | the stored city names differ, compared case-sensitively |
| BlazeDemoModels.ValidateState | src/automation_testing_playground/models/blazedemo_models.py:41-46 | a state is accepted exactly when it has two characters, and stored upper-cased |
| BlazeDemoModels.ValidateZip | src/automation_testing_playground/models/blazedemo_models.py:32 | accepts exactly five digits, optionally followed by a dash and four digits |
| BlazeDemoModels.ZipPlusFour | src/automation_testing_playground/models/blazedemo_models.py:32 | a ZIP plus dash plus extension is valid exactly when the extension is four digits |
| BlazeDemoModels.NewPassengerInfo | src/automation_testing_playground/models/blazedemo_models.py:25-46 | accepted exactly when name, address and city are not blank, the state has two characters, and the ZIP matches; stores the strips and the upper-cased state |
| BlazeDemoModels.PassengerInfoReportsRejectedFields | src/automation_testing_playground/models/blazedemo_models.py:25-46 | a rejected passenger reports exactly the fields whose values fail |
| BlazeDemoModels.PassengerInfoRevalidates | src/automation_testing_playground/models/blazedemo_models.py:34-46 | a stored passenger validates again to itself |
| BlazeDemoModels.ValidateCardType | src/automation_testing_playground/models/blazedemo_models.py:52-54 | exactly the three literal card types are accepted |
| BlazeDemoModels.ExpiryMonthIsOneToTwelve | src/automation_testing_playground/models/blazedemo_models.py:56 | the month pattern accepts exactly the two-digit spellings of 1 to 12 |
| BlazeDemoModels.ValidateExpiryYear | src/automation_testing_playground/models/blazedemo_models.py:69-75 | four digits whose value is at least 2024; the pattern failure and the early-year failure are told apart |
| BlazeDemoModels.NewPaymentDetails | src/automation_testing_playground/models/blazedemo_models.py:49-75 | accepted exactly when the card type is a literal, the number is 13 to 19 digits, the month is 01 to 12, the year is four digits at least 2024, and the name is non-empty; values are kept as given |
| BlazeDemoModels.PaymentDetailsReportsRejectedFields | src/automation_testing_playground/models/blazedemo_models.py:49-75 | a rejected payment reports exactly the fields whose values fail |
| BlazeDemoModels.Validate | src/automation_testing_playground/models/blazedemo_models.py:86-89 | a booking fails validation exactly when the two stored cities are equal, with the fixed message |
| BlazeDemoModels.ValidateComparesStrippedCities | src/automation_testing_playground/models/blazedemo_models.py:13-22 | for a booking built from raw city names, validation fails exactly when their strips agree |
| BlazeDemoModels.PaddedCitiesAreTheSame | src/automation_testing_playground/models/blazedemo_models.py:13-22 | one city name padded differently on each side is still rejected as the same city |
| OrangeHrmModels.NewLoginCredentials | src/automation_testing_playground/models/orangehrm_models.py:7-18 | accepted exactly when neither username nor password is all whitespace; stores both stripped; otherwise reports exactly the blank ones |
| OrangeHrmModels.LoginCredentialsRevalidate | src/automation_testing_playground/models/orangehrm_models.py:13-18 | stored credentials validate again to themselves |
| OrangeHrmModels.NewEmployeeData | src/automation_testing_playground/models/orangehrm_models.py:21-34 | accepted exactly when neither name is all whitespace; names stored stripped, middle name and employee id untouched |
| OrangeHrmModels.Any | src/automation_testing_playground/models/orangehrm_models.py:46 | `any` is true exactly when some element is truthy |
| OrangeHrmModels.HasCriteria | src/automation_testing_playground/models/orangehrm_models.py:44-46 | there are criteria exactly when some criterion is present and non-empty |
| OrangeHrmModels.HasCriteriaTreatsEmptyAsAbsent | src/automation_testing_playground/models/orangehrm_models.py:44-46 | `""` counts as absent, like `None`, while a whitespace-only criterion counts |
| OrangeHrmModels.NewJobTitleData | src/automation_testing_playground/models/orangehrm_models.py:49-61 | accepted exactly when the title is not all whitespace; stored stripped; an empty title fails `min_length`, a blank one the validator |
| LogHelpers.InlineLogger.constructor | src/automation_testing_playground/helpers/log_helpers.py:8-14 | counter 1, no steps, errors or warnings |
| LogHelpers.InlineLogger.Step | src/automation_testing_playground/helpers/log_helpers.py:16-26 | appends a running step numbered with the counter, advances the counter, and keeps the numbering invariant |
| LogHelpers.InlineLogger.Success | src/automation_testing_playground/helpers/log_helpers.py:31-35 | marks only the latest step successful; with no steps nothing changes |
| LogHelpers.InlineLogger.Warning | src/automation_testing_playground/helpers/log_helpers.py:37-44 | records the warning against the latest step (0 before any) and changes no step |
| LogHelpers.InlineLogger.Error | src/automation_testing_playground/helpers/log_helpers.py:46-63 | records the error and exception against the latest step (0 before any) and marks that step failed |
| LogHelpers.WithLastStatus | src/automation_testing_playground/helpers/log_helpers.py:31-58 | only the last step's status changes; the others, and the count, are kept |
| LogHelpers.ShortDescription | src/automation_testing_playground/helpers/log_helpers.py:117 | descriptions of at most 30 characters are shown whole; a longer one is shown as 33 characters: its first 30, then "..." |
| LogHelpers.ShortDescriptionUnchanged | src/automation_testing_playground/helpers/log_helpers.py:117 | a description is shown unchanged exactly when it fits, or is 30 characters followed by "..." |
| LogHelpers.FinalVerdict | src/automation_testing_playground/helpers/log_helpers.py:146-153 | failures take precedence over skips, and "all passed" is printed only when neither occurred |
| LogHelpers.InlineLogger.Summary | src/automation_testing_playground/helpers/log_helpers.py:90-155 | one row per step in order, with its number, shortened description and status; errors and warnings numbered from 1 in order; the verdict; the logger is unchanged |
| LogHelpers.LoggerScenario | src/automation_testing_playground/helpers/log_helpers.py:16-63 | a step with a warning and an error that then succeeds shows as one successful step, with the error and warning attributed to step 1 |

## Left out

- Real HTTP, sleeping and clocks. The transport is a parameter, sleeping is a counter of seconds, and
  the response time is a given number. The step logger's timestamps, durations, `test_start` and
  `test_end` dates are not modelled.
- The text the loggers print: emoji, upper-cased step titles, tables and message strings. The base
  client's log calls are recorded only as the kind of event each one was. It logs through a simpler
  logger copy, `helpers/log_helpers.py`, which is not part of this model.
- `note`, `highlight`, `divider`, `test_start` and `test_end` only print. They are methods that change
  nothing, and have no row above.
- `capture_exception` and the tracebacks `error` records. They need Python's exception machinery. An
  exception is modelled as an optional value.
- `log_response_details` only prints.
- The JSON Schema and JSONPath engines. `SchemaCheck` takes the schema as the predicate it denotes, and
  the two fixed schemas are written out. `ExtractByJsonPath` takes the query as its function from a
  document to its list of matches.
- Keyword arguments other than `timeout` and `json`, and tuple timeouts.
- Case-insensitive header names, and the session's own default headers.
- Floating-point details: NaN, rounding, and `{:.2f}` formatting. JSON numbers are ints or exact reals.
- Unicode beyond ASCII:
  - Digits: the validators' `\d` and `int()` also accept non-ASCII decimal digits, which are left out.
  - `upper`: the model upper-cases ASCII letters only, whereas Python's `upper` also changes (and can
    lengthen) other letters.
- Text.Upper: ASCII only, as described in the previous item.
- BlazeDemoModels.ValidateState: upper-cases with `Text.Upper`, so it is limited to ASCII in the same way.
- The messages of pydantic's validation errors. A rejection is modelled as the list of failing fields
  with a reason.
- Pydantic's type coercion of non-string input. Every field is given as a string, or as an optional
  string.
- `MaxRetries` is the configured constant 3. A configuration of 0 retries, which makes the Python
  `_make_request` return `None`, is not modelled.

## Findings

| source | as written | input that shows it | evidently intended | confidence | as-written member | corrected member |
|---|---|---|---|---|---|---|
| pages/api/base_api_client.py:197-215 | `key in response_json` and `response_json[key]` run on whatever JSON came back, and only `JSONDecodeError` is caught | a response body `5` (or `null`, or `["id"]`) with expected content `{"id": 1}` raises `TypeError` out of the verification helper | a decoded body that is not a JSON object holds no key: with a non-empty expectation the check returns false and logs an error; an empty expectation still passes, as it does in the code as written | medium, not executed | BaseApiClient.ContainsAsWrittenRaises | BaseApiClient.VerifyResponseContains |
