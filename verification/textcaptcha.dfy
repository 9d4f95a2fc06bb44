/**
  `TextCaptcha`: the shared engine with a minimum sleep of 5, the `post` method and keyword
  arguments; the handler writes the question into the payload as `textcaptcha`.
 */
module TextCaptcha {
  import opened Wrappers
  import opened Protocol
  import opened Configuration
  import opened Engine

  const TextProfile: Profile := Profile(5, "post", true)

  /** `TextCaptcha.__init__`. */
  function Init(rucaptchaKey: string, sleepTime: int, serviceType: string, kwargs: Dict,
                jsonResponse: Dict): (r: Result<Solver, ConfigError>)
    ensures r.Success? <==> 5 <= sleepTime && (serviceType == "2captcha" || serviceType == "rucaptcha")
    ensures sleepTime < 5 ==> r == Failure(SleepTooShort(sleepTime))
    ensures 5 <= sleepTime && serviceType != "2captcha" && serviceType != "rucaptcha" ==>
      r == Failure(UnknownService)
    ensures r.Success? ==>
      && r.value.sleepTime == sleepTime
      && (serviceType == "2captcha" ==> r.value.endpoints == Endpoints(UrlRequest2Captcha, UrlResponse2Captcha))
      && (serviceType == "rucaptcha" ==> r.value.endpoints == Endpoints(UrlRequestRuCaptcha, UrlResponseRuCaptcha))
    ensures r.Success? ==>
      && r.value.postPayload.Keys == {"key", "method", "json", "soft_id"} + kwargs.Keys
      && (forall k :: k in kwargs ==> r.value.postPayload[k] == kwargs[k])
      && (forall k :: k in BasePost(rucaptchaKey, "post") && k !in kwargs ==>
            r.value.postPayload[k] == BasePost(rucaptchaKey, "post")[k])
      && r.value.getPayload == map["key" := Str(rucaptchaKey), "action" := Str("get"), "json" := Int(1)]
      && r.value.result == jsonResponse
  {
    Construct(TextProfile, rucaptchaKey, serviceType, sleepTime, kwargs, jsonResponse)
  }

  /** `TextCaptcha.captcha_handler`. */
  function CaptchaHandler(s: Solver, captchaText: string, submit: Response, trace: seq<Response>): (h: Handled)
    ensures h.solver.postPayload.Keys == s.postPayload.Keys + {"textcaptcha"}
    ensures h.solver.postPayload["textcaptcha"] == Str(captchaText)
    ensures forall k :: k in s.postPayload && k != "textcaptcha" ==> h.solver.postPayload[k] == s.postPayload[k]
    ensures |h.log| >= 1 && h.log[0] == Post(s.endpoints.request, h.solver.postPayload, None)
    ensures h.Raised? <==> submit.Exc?
  {
    Handle(s, map["textcaptcha" := Str(captchaText)], None, submit, trace)
  }

  /** The question given to the handler replaces a `textcaptcha` keyword argument of the constructor. */
  lemma QuestionOverridesKwarg(rucaptchaKey: string, sleepTime: int, serviceType: string, kwargs: Dict,
                               jsonResponse: Dict, captchaText: string, submit: Response, trace: seq<Response>)
    requires Init(rucaptchaKey, sleepTime, serviceType, kwargs, jsonResponse).Success?
    ensures var s := Init(rucaptchaKey, sleepTime, serviceType, kwargs, jsonResponse).value;
      var h := CaptchaHandler(s, captchaText, submit, trace);
      && h.solver.postPayload["textcaptcha"] == Str(captchaText)
      && (forall k :: k in kwargs && k != "textcaptcha" ==> h.solver.postPayload[k] == kwargs[k])
  {
  }

  /** The constructor's default arguments: `sleep_time=5`, `service_type='2captcha'`, no keyword arguments. */
  lemma DefaultsConstruct(rucaptchaKey: string, jsonResponse: Dict)
    ensures var r := Init(rucaptchaKey, 5, "2captcha", map[], jsonResponse);
      && r.Success? && r.value.sleepTime == 5
      && r.value.endpoints == Endpoints(UrlRequest2Captcha, UrlResponse2Captcha)
      && r.value.postPayload == BasePost(rucaptchaKey, "post")
  {
  }
}
