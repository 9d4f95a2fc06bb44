/**
  `RotateCaptcha`: the shared engine with a minimum sleep of 5, the `rotatecaptcha` method
  and no keyword arguments. The handler sends the downloaded image as a file beside the
  payload and leaves the payload itself unchanged.
 */
module RotateCaptcha {
  import opened Wrappers
  import opened Protocol
  import opened Configuration
  import opened Engine

  const RotateProfile: Profile := Profile(5, "rotatecaptcha", false)

  /** `RotateCaptcha.__init__`; a call with keyword arguments raises a `TypeError` before the body runs. */
  function Init(rucaptchaKey: string, serviceType: string, sleepTime: int, kwargs: Dict,
                jsonResponse: Dict): (r: Result<Solver, ConfigError>)
    ensures kwargs != map[] ==> r == Failure(UnexpectedKeyword)
    ensures r.Success? <==>
      kwargs == map[] && 5 <= sleepTime && (serviceType == "2captcha" || serviceType == "rucaptcha")
    ensures kwargs == map[] && sleepTime < 5 ==> r == Failure(SleepTooShort(sleepTime))
    ensures kwargs == map[] && 5 <= sleepTime && serviceType != "2captcha" && serviceType != "rucaptcha" ==>
      r == Failure(UnknownService)
    ensures r.Success? ==>
      && r.value.sleepTime == sleepTime
      && (serviceType == "2captcha" ==> r.value.endpoints == Endpoints(UrlRequest2Captcha, UrlResponse2Captcha))
      && (serviceType == "rucaptcha" ==> r.value.endpoints == Endpoints(UrlRequestRuCaptcha, UrlResponseRuCaptcha))
    ensures r.Success? ==>
      && r.value.postPayload ==
           map["key" := Str(rucaptchaKey), "method" := Str("rotatecaptcha"), "json" := Int(1), "soft_id" := AppKey]
      && r.value.getPayload == map["key" := Str(rucaptchaKey), "action" := Str("get"), "json" := Int(1)]
      && r.value.result == jsonResponse
  {
    Construct(RotateProfile, rucaptchaKey, serviceType, sleepTime, kwargs, jsonResponse)
  }

  /** `RotateCaptcha.captcha_handler`, given the downloaded image. */
  function CaptchaHandler(s: Solver, image: Value, submit: Response, trace: seq<Response>): (h: Handled)
    ensures h.solver.postPayload == s.postPayload
    ensures |h.log| >= 1 && h.log[0] == Post(s.endpoints.request, s.postPayload, Some(image))
    ensures h.Raised? <==> submit.Exc?
  {
    Handle(s, map[], Some(image), submit, trace)
  }

  /** A second captcha handled by the same solver submits the same payload: nothing of the first call leaks into it. */
  lemma PayloadStableAcrossCalls(s: Solver, first: Value, second: Value, submit: Response, trace: seq<Response>,
                                 submit': Response, trace': seq<Response>)
    ensures var h := CaptchaHandler(s, first, submit, trace);
      var h' := CaptchaHandler(h.solver, second, submit', trace');
      h'.log[0] == Post(s.endpoints.request, s.postPayload, Some(second))
  {
  }

  /** The constructor's default arguments: `service_type='2captcha'`, `sleep_time=5`. */
  lemma DefaultsConstruct(rucaptchaKey: string, jsonResponse: Dict)
    ensures var r := Init(rucaptchaKey, "2captcha", 5, map[], jsonResponse);
      && r.Success? && r.value.sleepTime == 5
      && r.value.endpoints == Endpoints(UrlRequest2Captcha, UrlResponse2Captcha)
  {
  }
}
