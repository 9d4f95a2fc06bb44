/** Properties of the shared engine that relate several calls or a whole run. */
module EngineProperties {
  import opened Wrappers
  import opened Protocol
  import opened Configuration
  import opened Engine

  /** Each deployment's name selects exactly that deployment, and distinct deployments use distinct URLs. */
  lemma ServiceTypeRoundTrip(d: Deployment, e: Deployment)
    ensures ParseServiceType(ServiceName(d)) == Success(d)
    ensures d != e ==> Urls(d).request != Urls(e).request && Urls(d).response != Urls(e).response
  {
  }

  /** Once a prefix of the trace ends the loop, the replies after it are never polled. */
  lemma {:induction false} PollLoopIgnoresRest(p: Poller, result: Dict, a: seq<Response>, b: seq<Response>)
    requires PollLoop(p, result, a).Finished?
    ensures PollLoop(p, result, a + b) == PollLoop(p, result, a)
    decreases |a|
  {
    assert |a| > 0;
    assert (a + b)[0] == a[0];
    assert (a + b)[1..] == a[1..] + b;
    PollLoopUnfold(p, result, a);
    PollLoopUnfold(p, result, a + b);
    if !IsTerminal(a[0]) {
      PollLoopIgnoresRest(p, result, a[1..], b);
    }
  }

  /** While a prefix of the trace leaves the loop pending, the run continues on the remaining replies. */
  lemma {:induction false} PollLoopResumes(p: Poller, result: Dict, a: seq<Response>, b: seq<Response>)
    requires PollLoop(p, result, a).Pending?
    ensures PollLoop(p, result, a + b) == Resume(PollLoop(p, result, a).log, |a|, PollLoop(p, result, b))
    decreases |a|
  {
    var ob := PollLoop(p, result, b);
    if |a| == 0 {
      assert a + b == b;
      match ob
      case Pending(l) => assert [] + l == l;
      case Finished(_, l, _) => assert [] + l == l;
    } else {
      assert (a + b)[0] == a[0];
      assert (a + b)[1..] == a[1..] + b;
      PollLoopUnfold(p, result, a);
      PollLoopUnfold(p, result, a + b);
      var rest := PollLoop(p, result, a[1..]);
      PollLoopResumes(p, result, a[1..], b);
      var round := if IsNotReady(a[0]) then [Post(p.url, p.query, None), Sleep(p.sleepTime)]
                   else [Post(p.url, p.query, None)];
      assert PollLoop(p, result, a) == Resume(round, 1, rest);
      ResumeResume(round, 1, rest.log, |a| - 1, ob);
    }
  }

  /**
    After a successful submit: one sleep before the first poll plus one per not-ready reply,
    and one post for the submit plus one per reply consumed.
   */
  lemma HandleCounts(s: Solver, fields: Dict, file: Option<Value>, submit: Response, trace: seq<Response>)
    requires submit.Resp? && submit.status != 0
    ensures var h := Handle(s, fields, file, submit, trace);
      var consumed := if h.Returned? then trace[..h.polls] else trace;
      && SleepCount(h.log) == 1 + NotReadyCount(consumed)
      && PostCount(h.log) == 1 + |consumed|
  {
    var query := s.getPayload["id" := Str(submit.request)];
    var started := s.result["taskId" := Str(submit.request)];
    var p := Poller(s.sleepTime, s.endpoints.response, query);
    var o := PollLoop(p, started, trace);
    PollLoopCounts(p, started, trace);
    var head := [Post(s.endpoints.request, Overlay(s.postPayload, fields), file)] + [Sleep(s.sleepTime)];
    SleepCountAppend(head, o.log);
    PostCountAppend(head, o.log);
    assert head[1..][1..] == [];
  }

  /**
    After a successful submit every later action is a sleep of the configured length or a
    poll of the response URL carrying the task id, and the first poll comes right after one sleep.
   */
  lemma PollsCarryTaskId(s: Solver, fields: Dict, file: Option<Value>, submit: Response, trace: seq<Response>)
    requires submit.Resp? && submit.status != 0
    ensures var h := Handle(s, fields, file, submit, trace);
      var poll := Post(s.endpoints.response, s.getPayload["id" := Str(submit.request)], None);
      && (forall j :: 2 <= j < |h.log| ==> h.log[j] == poll || h.log[j] == Sleep(s.sleepTime))
      && (|trace| > 0 ==> |h.log| > 2 && h.log[1] == Sleep(s.sleepTime) && h.log[2] == poll)
  {
    var query := s.getPayload["id" := Str(submit.request)];
    var o := PollLoop(Poller(s.sleepTime, s.endpoints.response, query), s.result["taskId" := Str(submit.request)], trace);
    var h := Handle(s, fields, file, submit, trace);
    assert h.log[2..] == o.log;
    forall j | 2 <= j < |h.log|
      ensures h.log[j] == Post(s.endpoints.response, query, None) || h.log[j] == Sleep(s.sleepTime)
    {
      assert h.log[j] == o.log[j - 2];
      assert o.log[j - 2] in o.log;
    }
  }

  /** A result dictionary as the shared `JSON_RESPONSE` starts: no error, no error body, no solution. */
  predicate Clean(d: Dict) {
    && "error" in d && d["error"] == Bool(false)
    && ("errorBody" !in d || d["errorBody"] == Null)
    && ("captchaSolve" !in d || d["captchaSolve"] == Null)
  }

  /** The result reports an error. */
  predicate Errored(d: Dict) {
    "error" in d && d["error"] == Bool(true)
  }

  /** The result carries an error body. */
  predicate HasErrorBody(d: Dict) {
    "errorBody" in d && d["errorBody"] != Null
  }

  /** The result carries a solution. */
  predicate Solved(d: Dict) {
    "captchaSolve" in d && d["captchaSolve"] != Null
  }

  /**
    Started from a clean result dictionary, a returned result reports an error exactly when it
    carries an error body, and exactly when it carries no solution.
   */
  lemma ReturnedEnvelopeExclusive(s: Solver, fields: Dict, file: Option<Value>, submit: Response, trace: seq<Response>)
    requires Clean(s.result)
    requires Handle(s, fields, file, submit, trace).Returned?
    ensures var d := Handle(s, fields, file, submit, trace).solver.result;
      && (Errored(d) <==> HasErrorBody(d))
      && (Errored(d) <==> !Solved(d))
  {
  }

  /**
    The result dictionary is updated in place and never reset: a call that fails at submit,
    followed by a call on the same solver that is solved, returns a result that both reports
    an error and carries the solution.
   */
  lemma StaleErrorSurvivesSolve(s: Solver, fields: Dict, token: string, taskId: string, solution: string)
    requires Clean(s.result) && solution != NotReady
    ensures var first := Handle(s, fields, None, Resp(0, token), []);
      var second := Handle(first.solver, fields, None, Resp(1, taskId), [Resp(1, solution)]);
      && first.Returned? && Errored(first.solver.result)
      && second.Returned? && Errored(second.solver.result) && Solved(second.solver.result)
      && second.solver.result["captchaSolve"] == Str(solution)
  {
  }
}
