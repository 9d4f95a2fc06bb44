# python-rucaptcha submit-then-poll engine, in Dafny

This project models the core of `python_rucaptcha`, a client for the 2captcha/rucaptcha
captcha-solving service. Each captcha class (`FunCaptcha`, `aioFunCaptcha`, `RotateCaptcha`,
`TextCaptcha`) has a constructor and a handler. The constructor validates `sleep_time` and
`service_type` and builds the submit payload (`post_payload`) and the poll payload
(`get_payload`). The handler posts the captcha, then sleeps and polls the service until it
reports a solution or an error. The results are written field by field into a result
dictionary.

The model writes this state machine once, in `Engine`. The engine is parameterised by a
`Profile`, which holds the minimum sleep, the `method` string and whether `**kwargs` are
accepted. Each class module instantiates the engine with its own profile and its own payload
fields.

The network is replaced by data:
- the reply to the submit post is a `Response`: `Resp(status, request)`, or `Exc(cause)` for an
  exception;
- the replies to the successive polls are a finite trace of `Response`s.

The source loop has no iteration bound. If the trace holds no terminal reply, the model returns
`Polling`, meaning the loop is still running. Sleeps and posts are recorded in an action log
instead of being performed.

Files:
- `wrappers.dfy` has `Option` and `Result`.
- `protocol.dfy` has payload values, replies, actions and counting helpers.
- `config.dfy` has the constructor logic.
- `engine.dfy` has the poll step, the poll loop and the handler.
- `engine_properties.dfy` has lemmas that relate several runs or whole runs.
- `funcaptcha.dfy`, `rotatecaptcha.dfy` and `textcaptcha.dfy` hold the per-class instantiations.

Collaborators whose code is not part of this model stay opaque:
- `RuCaptchaError().errors(token)` becomes the value `Classified(token)`.
- The configuration constants become opaque values: the URLs are `Url` constructors and
  `app_key` is `AppKey`.
- The initial `JSON_RESPONSE` dictionary is a parameter, `jsonResponse`.

Behaviours of the code that the model keeps on purpose:
- The result dictionary is `JSON_RESPONSE` itself, and it is updated in place and never reset.
  So "`error` is true exactly when `errorBody` is present, and false exactly when a solution is
  present" holds only when a call starts from a clean dictionary
  (`EngineProperties.ReturnedEnvelopeExclusive`). An error recorded by an earlier call survives
  a later successful solve (`EngineProperties.StaleErrorSurvivesSolve`).
- A poll reply that is not the not-ready sentinel and whose status is neither 0 nor 1 is not a
  failure. The loop simply polls again, without sleeping.
- An exception raised by the submit post is outside the `try` and propagates to the caller
  (`Raised`). It is not recorded as an error.
- The error body built from an exception is `{'text': error}`.
- The not-ready test comes before the status test. A reply whose `request` is
  `CAPCHA_NOT_READY` therefore means "sleep and poll again" even when its status is 1.

## Model

| member | source | states |
|---|---|---|
| Configuration.ParseServiceType | python_rucaptcha/FunCaptcha.py:36-44 | `service_type` is accepted exactly when it names a deployment ('2captcha' or 'rucaptcha'), and then it selects that deployment; any other value raises `ValueError` (with a fixed message) |
| Configuration.CheckSleep | python_rucaptcha/FunCaptcha.py:30-33 | `sleep_time` below the minimum raises `ValueError`; otherwise it is kept unchanged |
| Configuration.UpdateWithKwargs | python_rucaptcha/FunCaptcha.py:51-54 | the loop that writes keyword arguments one at a time produces the base payload overlaid by the keyword arguments: every keyword wins over a same-named base key, and the other base keys are kept |
| Configuration.Construct | python_rucaptcha/FunCaptcha.py:20-62 | construction succeeds exactly when keyword arguments are allowed (or absent), the sleep meets the minimum and the service type is known; the checks apply in that order; on success it stores the sleep and the deployment's URLs, builds a submit payload of key/method/json/soft_id plus the keyword arguments (which override), builds a poll payload with no task id, and keeps the incoming result dictionary |
| Engine.Settle | python_rucaptcha/FunCaptcha.py:111-142 | a terminal reply writes only `error`/`errorBody` (a classified token for status 0, `{'text': cause}` for an exception, leaving `captchaSolve` untouched) or only `captchaSolve` (status 1, leaving `error` and `errorBody` untouched); every other result field is unchanged |
| Engine.PollStep | python_rucaptcha/FunCaptcha.py:106-124 | one poll reply stops the loop exactly when it is terminal (an exception, or status 0 or 1 with a body other than the sentinel); a non-terminal reply is followed by a sleep exactly when it is the not-ready sentinel |
| Engine.PollLoop | python_rucaptcha/FunCaptcha.py:101-142 | the loop finishes exactly when the trace contains a terminal reply; it then stops at the first one, having consumed no reply after it, and returns that reply's update of the result; every action is a poll of the response URL with the poll payload or a sleep of the configured length |
| Engine.PollLoopCounts | python_rucaptcha/FunCaptcha.py:100-108 | a run makes one poll per consumed reply and one sleep per consumed not-ready reply |
| Engine.RunPollLoop | python_rucaptcha/FunCaptcha.py:101-124 | the `while` loop that reads replies in order and returns at the first terminal one computes the same run as the recursive definition |
| Engine.Handle | python_rucaptcha/FunCaptcha.py:70-142 | the handler's fields are written over the submit payload before the submit post; an exception at submit propagates; status 0 records a classified error with no sleep and no poll, and leaves the poll payload unchanged; any other status records `taskId` and puts the id into the poll payload, sleeps once, then polls; the call returns exactly when a terminal reply arrives, after polling up to and including the first terminal reply and no further, with that reply's update; while the loop is still running, the result has gained only `taskId` |
| Engine.PollPhase | python_rucaptcha/FunCaptcha.py:91-142 | after an accepted submit, `taskId` and the poll payload's `id` hold the returned request, one sleep follows the submit, and the call returns exactly when a terminal reply arrives, stopping at the first one with its update; while no terminal reply has arrived the result differs from the incoming one only in `taskId`; the sleep, URLs and submit payload are unchanged |
| EngineProperties.ServiceTypeRoundTrip | python_rucaptcha/FunCaptcha.py:36-44 | each deployment's name selects that same deployment, and the two deployments use different request URLs and different response URLs (the URL constants being distinct) |
| EngineProperties.PollLoopIgnoresRest | python_rucaptcha/FunCaptcha.py:116-142 | once a terminal reply has been read, no later reply changes the outcome: the loop has returned |
| EngineProperties.PollLoopResumes | python_rucaptcha/FunCaptcha.py:101-108 | while the replies read so far are non-terminal, the run continues on the later replies with the earlier actions as a prefix |
| EngineProperties.HandleCounts | python_rucaptcha/FunCaptcha.py:91-108 | after a successful submit, the number of sleeps is one plus the number of not-ready replies consumed, and the number of posts is one plus the number of polls |
| EngineProperties.PollsCarryTaskId | python_rucaptcha/FunCaptcha.py:96-104 | after a successful submit, the second action is a sleep and the third is the first poll; every later action is a sleep or a poll of the response URL whose payload carries the task id |
| EngineProperties.ReturnedEnvelopeExclusive | python_rucaptcha/FunCaptcha.py:84-124 | started from a clean result dictionary, a returned result reports an error exactly when it carries an error body, and exactly when it carries no solution |
| EngineProperties.StaleErrorSurvivesSolve | python_rucaptcha/FunCaptcha.py:62-124 | because the result dictionary is reused, a submit failure followed by a solved call on the same object returns `error` true together with the solution |
| FunCaptcha.Init | python_rucaptcha/FunCaptcha.py:20-62 | construction fails with `ValueError` exactly when `sleep_time < 15`, or when the service type is unknown; on success the sleep is stored unchanged, the service type selects its URL pair, the payload holds every keyword argument over key, method 'funcaptcha', json 1 and soft_id `app_key` (each kept unless a keyword overrides it), the poll payload is key, action 'get' and json 1, and the result dictionary starts as `JSON_RESPONSE` |
| FunCaptcha.DefaultsConstruct | python_rucaptcha/FunCaptcha.py:20 | with the default arguments (`service_type='2captcha'`, `sleep_time=15`, no keywords) construction succeeds with the 2captcha URLs and the base payload |
| FunCaptcha.CaptchaHandler | python_rucaptcha/FunCaptcha.py:70-81 | the handler writes `publickey` and `pageurl` over the payload, leaves every other entry unchanged, submits that payload, and raises exactly when the submit raises |
| FunCaptcha.AioInit | python_rucaptcha/FunCaptcha.py:153-195 | the cooperative constructor behaves exactly like the blocking one |
| FunCaptcha.AioCaptchaHandler | python_rucaptcha/FunCaptcha.py:198-263 | the cooperative handler produces the same outcome, state and actions as the blocking one |
| FunCaptcha.SiteFieldsOverrideKwargs | python_rucaptcha/FunCaptcha.py:52-54 | a `publickey` or `pageurl` keyword argument is replaced by the handler's arguments; every other keyword argument reaches the submit payload unchanged |
| FunCaptcha.SolvedAfterNotReady | python_rucaptcha/FunCaptcha.py:84-124 | task "123", then one not-ready reply, then solution "ABCD": the result has taskId "123", solution "ABCD" and error false, after the action sequence submit, sleep, poll, sleep, poll |
| FunCaptcha.RejectedAtSubmit | python_rucaptcha/FunCaptcha.py:84-89 | a submit rejected with ERROR_WRONG_USER_KEY returns a classified error without any sleep or poll, and leaves the poll payload unchanged |
| FunCaptcha.FaultOnFirstPoll | python_rucaptcha/FunCaptcha.py:126-133 | a connection fault on the first poll of task "555" returns after that one poll with taskId "555", error true and the fault's text; later replies are never read |
| RotateCaptcha.Init | python_rucaptcha/RotateCaptcha.py:13-49 | keyword arguments are rejected; otherwise construction fails exactly when `sleep_time < 5` or the service type is unknown, in that order; on success the submit payload is exactly key, method 'rotatecaptcha', json 1 and soft_id, and the poll payload is key, action 'get' and json 1 |
| RotateCaptcha.DefaultsConstruct | python_rucaptcha/RotateCaptcha.py:13 | with the default arguments (`service_type='2captcha'`, `sleep_time=5`) construction succeeds with the 2captcha URLs |
| RotateCaptcha.CaptchaHandler | python_rucaptcha/RotateCaptcha.py:57-91 | the image travels as a file beside the unchanged payload on the submit post; the call raises exactly when the submit raises |
| RotateCaptcha.PayloadStableAcrossCalls | python_rucaptcha/RotateCaptcha.py:73 | a second captcha on the same object submits the same payload, with the new image attached |
| TextCaptcha.Init | python_rucaptcha/TextCaptcha.py:12-44 | construction fails exactly when `sleep_time < 5` or the service type is unknown, in that order; on success the sleep is stored, the payload holds the keyword arguments over key, method 'post', json 1 and soft_id `app_key` (each kept unless a keyword overrides it), the poll payload is key, action 'get' and json 1 with no task id, and the result dictionary starts as `JSON_RESPONSE` |
| TextCaptcha.DefaultsConstruct | python_rucaptcha/TextCaptcha.py:12 | with the default arguments (`sleep_time=5`, `service_type='2captcha'`, no keywords) construction succeeds with the 2captcha URLs and the base payload |
| TextCaptcha.CaptchaHandler | python_rucaptcha/TextCaptcha.py:51-57 | the handler writes the question as `textcaptcha` over the payload, leaves every other entry unchanged, submits that payload, and raises exactly when the submit raises |
| TextCaptcha.QuestionOverridesKwarg | python_rucaptcha/TextCaptcha.py:23-25 | a `textcaptcha` keyword argument is replaced by the handler's question; every other keyword argument reaches the submit payload unchanged |

## Left out

- HTTP transport (`requests.Session`, `HTTPAdapter(max_retries=5)`, `aiohttp` sessions) is replaced by given replies. Retries inside the transport are invisible here.
- Real sleeping (`time.sleep`, `asyncio.sleep`) is recorded as `Sleep` actions. The difference between blocking and cooperative scheduling is not modelled.
- The image download and temporary file of `RotateCaptcha.captcha_handler` are left out as I/O. The downloaded image is a parameter, and a download that raises is not modelled.
- `RuCaptchaError` and the configuration module (URLs, `app_key`, `JSON_RESPONSE`) are not part of this model. They appear as opaque values. The four URL constants are four distinct `Url` constructors, so the model assumes they are pairwise distinct; `EngineProperties.ServiceTypeRoundTrip` relies on that for its URL clause.
- Exception classes are collapsed into `Exc(cause)`, because both `except` clauses record the same result.
- Malformed replies are not modelled separately. Every reply here has a string `request` and an integer `status`. A malformed poll reply (a non-JSON body, a missing `request` key, or a missing `status` key on a body other than the not-ready sentinel) raises inside the `try`, so it is an `Exc` reply here that ends the loop with `{'text': error}`. A not-ready reply never has its `status` read, which `Resp(_, "CAPCHA_NOT_READY")` represents whatever its status. A malformed submit reply raises outside the `try` and propagates, so it is an `Exc` submit reply here, which gives `Raised`.
- Constructor error messages are not modelled: `SleepTooShort` carries the rejected value, and `UnknownService` carries nothing, because the source's message for it is fixed.
- The `is 0` comparison of the submit status is modelled as integer equality.
- Sharing of the one `JSON_RESPONSE` dictionary between different objects is not modelled. Each solver carries its own copy, and reuse across calls on one object is modelled.
- Dictionary key order is not modelled, because payloads are maps.
- Engine.PollLoop: a loop that never receives a terminal reply is represented by a finite trace ending in `Pending`/`Polling`, not by divergence.
- The example scripts under `CaptchaTester` only call the live service and have no logic of their own.
