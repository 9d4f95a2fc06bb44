/**
  The wire-level vocabulary shared by every captcha class: the values that travel in the
  submit/poll payloads and in the result dictionary, the service's responses, and the
  observable actions (HTTP posts and sleeps) a handler performs.
 */
module Protocol {
  import opened Wrappers

  /** A value stored in a payload or in the result dictionary. */
  datatype Value =
    | Null                      // Python's `None`
    | Str(s: string)
    | Int(i: int)
    | Bool(b: bool)
    | AppKey                    // the `app_key` configuration constant (`soft_id`)
    | Classified(token: string) // `RuCaptchaError().errors(token)`, kept uninterpreted
    | ErrorText(cause: string)  // the dictionary `{'text': error}` built from a caught exception

  /** A Python dictionary with string keys (payloads and the result dictionary). */
  type Dict = map<string, Value>

  /** The URL constants of the configuration module, kept opaque. */
  datatype Url =
    | UrlRequest2Captcha
    | UrlResponse2Captcha
    | UrlRequestRuCaptcha
    | UrlResponseRuCaptcha

  /** The request/response URL pair of one service deployment. */
  datatype Endpoints = Endpoints(request: Url, response: Url)

  /** One reply of the service: a decoded JSON body, or an exception raised while obtaining it. */
  datatype Response =
    | Resp(status: int, request: string)
    | Exc(cause: string)

  /** The exact body that marks a task as still being solved. */
  const NotReady: string := "CAPCHA_NOT_READY"

  /** One observable effect of a handler: an HTTP post, or a sleep of the given length. */
  datatype Action =
    | Post(url: Url, data: Dict, file: Option<Value>)
    | Sleep(seconds: int)

  /** A poll reply that means "sleep and ask again", whatever its status. */
  predicate IsNotReady(r: Response) {
    r.Resp? && r.request == NotReady
  }

  /** A poll reply that ends the polling loop. */
  predicate IsTerminal(r: Response) {
    r.Exc? || (r.request != NotReady && (r.status == 0 || r.status == 1))
  }

  /** The number of not-ready replies in a trace of poll replies. */
  function NotReadyCount(trace: seq<Response>): (n: nat)
    ensures n <= |trace|
  {
    if |trace| == 0 then 0
    else (if IsNotReady(trace[0]) then 1 else 0) + NotReadyCount(trace[1..])
  }

  /** The number of sleeps in an action log. */
  function SleepCount(log: seq<Action>): (n: nat)
    ensures n <= |log|
  {
    if |log| == 0 then 0
    else (if log[0].Sleep? then 1 else 0) + SleepCount(log[1..])
  }

  /** The number of posts in an action log. */
  function PostCount(log: seq<Action>): (n: nat)
    ensures n <= |log|
  {
    if |log| == 0 then 0
    else (if log[0].Post? then 1 else 0) + PostCount(log[1..])
  }

  lemma {:induction false} NotReadyCountAppend(a: seq<Response>, b: seq<Response>)
    ensures NotReadyCount(a + b) == NotReadyCount(a) + NotReadyCount(b)
  {
    if |a| == 0 {
      assert a + b == b;
    } else {
      assert (a + b)[1..] == a[1..] + b;
      NotReadyCountAppend(a[1..], b);
    }
  }

  lemma {:induction false} SleepCountAppend(a: seq<Action>, b: seq<Action>)
    ensures SleepCount(a + b) == SleepCount(a) + SleepCount(b)
  {
    if |a| == 0 {
      assert a + b == b;
    } else {
      assert (a + b)[1..] == a[1..] + b;
      SleepCountAppend(a[1..], b);
    }
  }

  lemma {:induction false} PostCountAppend(a: seq<Action>, b: seq<Action>)
    ensures PostCount(a + b) == PostCount(a) + PostCount(b)
  {
    if |a| == 0 {
      assert a + b == b;
    } else {
      assert (a + b)[1..] == a[1..] + b;
      PostCountAppend(a[1..], b);
    }
  }
}
