/**
  Construction of a solver: the minimum-sleep check, the choice of service deployment
  and the initial submit and poll payloads. Every captcha class runs this same
  construction with its own profile.
 */
module Configuration {
  import opened Wrappers
  import opened Protocol

  /** What distinguishes one captcha class's constructor from another's. */
  datatype Profile = Profile(
    minSleep: int,         // smallest accepted `sleep_time`
    methodName: string,    // the `method` entry of the submit payload
    acceptsKwargs: bool    // whether the constructor takes `**kwargs`
  )

  /** The exceptions a constructor raises. */
  datatype ConfigError =
    | UnexpectedKeyword      // `TypeError`: keyword arguments given to a constructor without `**kwargs`
    | SleepTooShort(sleepTime: int)  // `ValueError` of the `sleep_time` check
    | UnknownService  // `ValueError` of the `service_type` check (its message does not repeat the value)

  /** The two service deployments a solver can talk to. */
  datatype Deployment = TwoCaptcha | RuCaptcha

  /** The state a constructed solver object holds. */
  datatype Solver = Solver(
    sleepTime: int,
    endpoints: Endpoints,
    postPayload: Dict,
    getPayload: Dict,
    result: Dict
  )

  /** The `service_type` string that selects a deployment. */
  function ServiceName(d: Deployment): string {
    match d
    case TwoCaptcha => "2captcha"
    case RuCaptcha => "rucaptcha"
  }

  /** The request/response URL constants of a deployment. */
  function Urls(d: Deployment): Endpoints {
    match d
    case TwoCaptcha => Endpoints(UrlRequest2Captcha, UrlResponse2Captcha)
    case RuCaptcha => Endpoints(UrlRequestRuCaptcha, UrlResponseRuCaptcha)
  }

  /** The `service_type` branch of a constructor: a known name selects its deployment, anything else raises. */
  function ParseServiceType(serviceType: string): (r: Result<Deployment, ConfigError>)
    ensures r.Success? <==> exists d: Deployment :: ServiceName(d) == serviceType
    ensures r.Success? ==> ServiceName(r.value) == serviceType
    ensures r.Failure? ==> r.error == UnknownService
  {
    if serviceType == "2captcha" then assert ServiceName(TwoCaptcha) == serviceType; Success(TwoCaptcha)
    else if serviceType == "rucaptcha" then assert ServiceName(RuCaptcha) == serviceType; Success(RuCaptcha)
    else Failure(UnknownService)
  }

  /** The `sleep_time` check of a constructor: values below the minimum raise, others are kept unchanged. */
  function CheckSleep(minSleep: int, sleepTime: int): (r: Result<int, ConfigError>)
    ensures r.Success? <==> minSleep <= sleepTime
    ensures r.Success? ==> r.value == sleepTime
    ensures r.Failure? ==> r.error == SleepTooShort(sleepTime)
  {
    if sleepTime < minSleep then Failure(SleepTooShort(sleepTime)) else Success(sleepTime)
  }

  /** The submit payload before keyword arguments are written in. */
  function BasePost(key: string, methodName: string): Dict {
    map["key" := Str(key), "method" := Str(methodName), "json" := Int(1), "soft_id" := AppKey]
  }

  /** The poll payload; the task id is added once a submission succeeds. */
  function BaseGet(key: string): Dict {
    map["key" := Str(key), "action" := Str("get"), "json" := Int(1)]
  }

  /** `dict.update`: every entry of `extra` is written into `base`, replacing an entry of the same key. */
  function Overlay(base: Dict, extra: Dict): (r: Dict)
    ensures r.Keys == base.Keys + extra.Keys
    ensures forall k :: k in extra ==> r[k] == extra[k]
    ensures forall k :: k in base && k !in extra ==> r[k] == base[k]
  {
    base + extra
  }

  /** The keyword-argument loop of a constructor: each keyword is written into the payload one at a time. */
  method UpdateWithKwargs(base: Dict, kwargs: Dict) returns (p: Dict)
    ensures p == Overlay(base, kwargs)
  {
    p := base;
    var pending := kwargs.Keys;
    while pending != {}
      invariant pending <= kwargs.Keys
      invariant p.Keys == base.Keys + (kwargs.Keys - pending)
      invariant forall k :: k in kwargs && k !in pending ==> p[k] == kwargs[k]
      invariant forall k :: k in base && (k !in kwargs || k in pending) ==> p[k] == base[k]
      decreases pending
    {
      var k :| k in pending;
      p := p[k := kwargs[k]];
      pending := pending - {k};
    }
    assert p == Overlay(base, kwargs);
  }

  /**
    A constructor call: keyword arguments to a class without `**kwargs` are a `TypeError`,
    then the `sleep_time` check, then the `service_type` check; the result dictionary starts
    as the shared `JSON_RESPONSE` dictionary, passed in as `jsonResponse`.
   */
  function Construct(profile: Profile, key: string, serviceType: string, sleepTime: int,
                     kwargs: Dict, jsonResponse: Dict): (r: Result<Solver, ConfigError>)
    ensures r.Success? <==>
      && (profile.acceptsKwargs || kwargs == map[])
      && profile.minSleep <= sleepTime
      && (serviceType == "2captcha" || serviceType == "rucaptcha")
    ensures !profile.acceptsKwargs && kwargs != map[] ==> r == Failure(UnexpectedKeyword)
    ensures (profile.acceptsKwargs || kwargs == map[]) && sleepTime < profile.minSleep ==>
      r == Failure(SleepTooShort(sleepTime))
    ensures && (profile.acceptsKwargs || kwargs == map[]) && profile.minSleep <= sleepTime
            && serviceType != "2captcha" && serviceType != "rucaptcha" ==>
      r == Failure(UnknownService)
    ensures r.Success? ==>
      && r.value.sleepTime == sleepTime
      && exists d: Deployment :: ServiceName(d) == serviceType && r.value.endpoints == Urls(d)
    ensures r.Success? ==>
      && r.value.postPayload.Keys == {"key", "method", "json", "soft_id"} + kwargs.Keys
      && (forall k :: k in kwargs ==> r.value.postPayload[k] == kwargs[k])
      && (forall k :: k in BasePost(key, profile.methodName) && k !in kwargs ==>
            r.value.postPayload[k] == BasePost(key, profile.methodName)[k])
    ensures r.Success? ==>
      && r.value.getPayload == BaseGet(key)
      && "id" !in r.value.getPayload
      && r.value.result == jsonResponse
  {
    if !profile.acceptsKwargs && kwargs != map[] then Failure(UnexpectedKeyword)
    else
      match CheckSleep(profile.minSleep, sleepTime)
      case Failure(e) => Failure(e)
      case Success(t) =>
        match ParseServiceType(serviceType)
        case Failure(e) => Failure(e)
        case Success(d) =>
          Success(Solver(t, Urls(d), Overlay(BasePost(key, profile.methodName), kwargs),
                         BaseGet(key), jsonResponse))
  }
}
