/**
  `FunCaptcha` and its cooperative twin `aioFunCaptcha`: both run the shared engine with a
  minimum sleep of 15, the `funcaptcha` method and keyword arguments, and write the site's
  public key and page URL into the submit payload when a captcha is handled.
 */
module FunCaptcha {
  import opened Wrappers
  import opened Protocol
  import opened Configuration
  import opened Engine
  import opened EngineProperties

  const FunProfile: Profile := Profile(15, "funcaptcha", true)

  /** `FunCaptcha.__init__`. */
  function Init(rucaptchaKey: string, serviceType: string, sleepTime: int, kwargs: Dict,
                jsonResponse: Dict): (r: Result<Solver, ConfigError>)
    ensures r.Success? <==> 15 <= sleepTime && (serviceType == "2captcha" || serviceType == "rucaptcha")
    ensures sleepTime < 15 ==> r == Failure(SleepTooShort(sleepTime))
    ensures 15 <= sleepTime && serviceType != "2captcha" && serviceType != "rucaptcha" ==>
      r == Failure(UnknownService)
    ensures r.Success? ==>
      && r.value.sleepTime == sleepTime
      && (serviceType == "2captcha" ==> r.value.endpoints == Endpoints(UrlRequest2Captcha, UrlResponse2Captcha))
      && (serviceType == "rucaptcha" ==> r.value.endpoints == Endpoints(UrlRequestRuCaptcha, UrlResponseRuCaptcha))
    ensures r.Success? ==>
      && r.value.postPayload.Keys == {"key", "method", "json", "soft_id"} + kwargs.Keys
      && (forall k :: k in kwargs ==> r.value.postPayload[k] == kwargs[k])
      && (forall k :: k in BasePost(rucaptchaKey, "funcaptcha") && k !in kwargs ==>
            r.value.postPayload[k] == BasePost(rucaptchaKey, "funcaptcha")[k])
      && r.value.getPayload == map["key" := Str(rucaptchaKey), "action" := Str("get"), "json" := Int(1)]
      && r.value.result == jsonResponse
  {
    Construct(FunProfile, rucaptchaKey, serviceType, sleepTime, kwargs, jsonResponse)
  }

  /** The entries `captcha_handler` writes into the submit payload. */
  function SiteFields(publicKey: string, pageUrl: string): Dict {
    map["publickey" := Str(publicKey), "pageurl" := Str(pageUrl)]
  }

  /** `FunCaptcha.captcha_handler`. */
  function CaptchaHandler(s: Solver, publicKey: string, pageUrl: string, submit: Response,
                          trace: seq<Response>): (h: Handled)
    ensures h.solver.postPayload.Keys == s.postPayload.Keys + {"publickey", "pageurl"}
    ensures h.solver.postPayload["publickey"] == Str(publicKey)
    ensures h.solver.postPayload["pageurl"] == Str(pageUrl)
    ensures forall k :: k in s.postPayload && k != "publickey" && k != "pageurl" ==>
      h.solver.postPayload[k] == s.postPayload[k]
    ensures |h.log| >= 1 && h.log[0] == Post(s.endpoints.request, h.solver.postPayload, None)
    ensures h.Raised? <==> submit.Exc?
  {
    Handle(s, SiteFields(publicKey, pageUrl), None, submit, trace)
  }

  /** `aioFunCaptcha.__init__`: the same checks and payloads as the blocking class. */
  function AioInit(rucaptchaKey: string, serviceType: string, sleepTime: int, kwargs: Dict,
                   jsonResponse: Dict): (r: Result<Solver, ConfigError>)
    ensures r == Init(rucaptchaKey, serviceType, sleepTime, kwargs, jsonResponse)
  {
    Construct(FunProfile, rucaptchaKey, serviceType, sleepTime, kwargs, jsonResponse)
  }

  /** `aioFunCaptcha.captcha_handler`: awaiting instead of blocking changes no outcome. */
  function AioCaptchaHandler(s: Solver, publicKey: string, pageUrl: string, submit: Response,
                             trace: seq<Response>): (h: Handled)
    ensures h == CaptchaHandler(s, publicKey, pageUrl, submit, trace)
  {
    Handle(s, SiteFields(publicKey, pageUrl), None, submit, trace)
  }

  /** The handler's public key and page URL replace keyword arguments of the same names. */
  lemma SiteFieldsOverrideKwargs(rucaptchaKey: string, serviceType: string, sleepTime: int, kwargs: Dict,
                                 jsonResponse: Dict, publicKey: string, pageUrl: string,
                                 submit: Response, trace: seq<Response>)
    requires Init(rucaptchaKey, serviceType, sleepTime, kwargs, jsonResponse).Success?
    ensures var s := Init(rucaptchaKey, serviceType, sleepTime, kwargs, jsonResponse).value;
      var h := CaptchaHandler(s, publicKey, pageUrl, submit, trace);
      && h.solver.postPayload["publickey"] == Str(publicKey)
      && h.solver.postPayload["pageurl"] == Str(pageUrl)
      && (forall k :: k in kwargs && k != "publickey" && k != "pageurl" ==> h.solver.postPayload[k] == kwargs[k])
  {
  }

  /** A solved run: task "123", one not-ready reply, then the solution "ABCD". */
  lemma SolvedAfterNotReady(s: Solver)
    requires Clean(s.result)
    ensures var h := CaptchaHandler(s, "key", "https://example.org", Resp(1, "123"),
                                    [Resp(0, NotReady), Resp(1, "ABCD")]);
      && h.Returned? && h.polls == 2
      && h.solver.result["taskId"] == Str("123")
      && h.solver.result["captchaSolve"] == Str("ABCD")
      && h.solver.result["error"] == Bool(false)
      && h.log == [Post(s.endpoints.request, h.solver.postPayload, None), Sleep(s.sleepTime),
                   Post(s.endpoints.response, s.getPayload["id" := Str("123")], None), Sleep(s.sleepTime),
                   Post(s.endpoints.response, s.getPayload["id" := Str("123")], None)]
  {
    var trace := [Resp(0, NotReady), Resp(1, "ABCD")];
    var p := Poller(s.sleepTime, s.endpoints.response, s.getPayload["id" := Str("123")]);
    var started := s.result["taskId" := Str("123")];
    PollLoopUnfold(p, started, trace);
    assert trace[1..] == [Resp(1, "ABCD")];
    PollLoopUnfold(p, started, trace[1..]);
  }

  /** A rejected submit: the error token is classified and nothing is polled. */
  lemma RejectedAtSubmit(s: Solver, publicKey: string, pageUrl: string, trace: seq<Response>)
    ensures var h := CaptchaHandler(s, publicKey, pageUrl, Resp(0, "ERROR_WRONG_USER_KEY"), trace);
      && h.Returned? && h.polls == 0 && |h.log| == 1
      && h.solver.result["error"] == Bool(true)
      && h.solver.result["errorBody"] == Classified("ERROR_WRONG_USER_KEY")
      && h.solver.getPayload == s.getPayload
  {
  }

  /** A connection fault on the first poll of task "555" ends the loop; later replies are never read. */
  lemma FaultOnFirstPoll(s: Solver, publicKey: string, pageUrl: string, later: seq<Response>)
    ensures var h := CaptchaHandler(s, publicKey, pageUrl, Resp(1, "555"), [Exc("ConnectionError")] + later);
      && h.Returned? && h.polls == 1
      && h.solver.result["taskId"] == Str("555")
      && h.solver.result["error"] == Bool(true)
      && h.solver.result["errorBody"] == ErrorText("ConnectionError")
  {
  }

  /** The constructor's default arguments: `service_type='2captcha'`, `sleep_time=15`, no keyword arguments. */
  lemma DefaultsConstruct(rucaptchaKey: string, jsonResponse: Dict)
    ensures var r := Init(rucaptchaKey, "2captcha", 15, map[], jsonResponse);
      && r.Success? && r.value.sleepTime == 15
      && r.value.endpoints == Endpoints(UrlRequest2Captcha, UrlResponse2Captcha)
      && r.value.postPayload == BasePost(rucaptchaKey, "funcaptcha")
  {
  }
}
