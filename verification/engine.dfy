/**
  The submit-then-poll state machine shared by every captcha class's `captcha_handler`.
  The network is replaced by given replies: one reply to the submit post and a finite
  trace of replies to the successive polls. The source loop has no iteration bound, so a
  trace that holds no terminal reply leaves the loop still running.
 */
module Engine {
  import opened Wrappers
  import opened Protocol
  import opened Configuration

  /** What every poll of one task uses: the sleep length, the response URL and the poll payload. */
  datatype Poller = Poller(sleepTime: int, url: Url, query: Dict)

  /** What the loop does after one poll reply. */
  datatype Step =
    | Again(wait: bool)  // poll again, after a sleep when `wait` holds
    | Stop(result: Dict) // return this result dictionary

  /** The loop over a finite trace: still running, or returned after consuming `used` replies. */
  datatype PollRun =
    | Pending(log: seq<Action>)
    | Finished(result: Dict, log: seq<Action>, used: nat)

  /** The outcome of one `captcha_handler` call, with the solver state it leaves behind. */
  datatype Handled =
    | Raised(solver: Solver, log: seq<Action>, cause: string)  // the submit post raised; nothing catches it
    | Returned(solver: Solver, log: seq<Action>, polls: nat)    // `solver.result` was returned
    | Polling(solver: Solver, log: seq<Action>)                 // the trace ended while the loop still runs

  /** The result-dictionary updates of a reply that ends the loop. */
  function Settle(result: Dict, r: Response): (d: Dict)
    requires IsTerminal(r)
    ensures d.Keys == result.Keys + (if r.Resp? && r.status == 1 then {"captchaSolve"} else {"error", "errorBody"})
    ensures forall k :: k in result && k !in (if r.Resp? && r.status == 1 then {"captchaSolve"} else {"error", "errorBody"}) ==>
      d[k] == result[k]
    ensures r.Exc? ==> d["error"] == Bool(true) && d["errorBody"] == ErrorText(r.cause)
    ensures r.Resp? && r.status == 0 ==> d["error"] == Bool(true) && d["errorBody"] == Classified(r.request)
    ensures r.Resp? && r.status == 1 ==> d["captchaSolve"] == Str(r.request)
  {
    match r
    case Exc(cause) => result["error" := Bool(true)]["errorBody" := ErrorText(cause)]
    case Resp(status, request) =>
      if status == 0 then result["error" := Bool(true)]["errorBody" := Classified(request)]
      else result["captchaSolve" := Str(request)]
  }

  /** One iteration of the poll loop: the not-ready sentinel is tested before the status. */
  function PollStep(result: Dict, r: Response): (s: Step)
    ensures s.Stop? <==> IsTerminal(r)
    ensures s.Again? ==> (s.wait <==> IsNotReady(r))
    ensures s.Stop? ==> IsTerminal(r) && s.result == Settle(result, r)
  {
    match r
    case Exc(_) => Stop(Settle(result, r))
    case Resp(status, request) =>
      if request == NotReady then Again(true)
      else if status == 0 then Stop(Settle(result, r))
      else if status == 1 then Stop(Settle(result, r))
      else Again(false)
  }

  /** The replies a run consumed: the whole trace while pending, else up to the terminal reply. */
  function Consumed(o: PollRun, trace: seq<Response>): seq<Response>
    requires o.Finished? ==> o.used <= |trace|
  {
    if o.Finished? then trace[..o.used] else trace
  }

  /** A run that resumes after `done` iterations which produced the actions `log`. */
  function Resume(log: seq<Action>, done: nat, o: PollRun): PollRun {
    match o
    case Pending(l) => Pending(log + l)
    case Finished(result, l, used) => Finished(result, log + l, used + done)
  }

  /** Resuming twice is resuming once with the actions and iteration counts joined. */
  lemma ResumeResume(a: seq<Action>, m: nat, b: seq<Action>, n: nat, o: PollRun)
    ensures Resume(a, m, Resume(b, n, o)) == Resume(a + b, m + n, o)
  {
    match o
    case Pending(l) => assert a + (b + l) == (a + b) + l;
    case Finished(_, l, _) => assert a + (b + l) == (a + b) + l;
  }

  /** The `while True` poll loop over a finite trace of poll replies. */
  function PollLoop(p: Poller, result: Dict, trace: seq<Response>): (o: PollRun)
    decreases |trace|
    ensures o.Finished? <==> exists i :: 0 <= i < |trace| && IsTerminal(trace[i])
    ensures o.Finished? ==>
      && 1 <= o.used <= |trace|
      && IsTerminal(trace[o.used - 1])
      && (forall i :: 0 <= i < o.used - 1 ==> !IsTerminal(trace[i]))
      && o.result == Settle(result, trace[o.used - 1])
    ensures o.Finished? ==> |o.log| > 0 && o.log[|o.log| - 1] == Post(p.url, p.query, None)
    ensures forall a :: a in o.log ==> a == Post(p.url, p.query, None) || a == Sleep(p.sleepTime)
    ensures |trace| > 0 ==> |o.log| > 0 && o.log[0] == Post(p.url, p.query, None)
  {
    if |trace| == 0 then Pending([])
    else
      var poll := Post(p.url, p.query, None);
      match PollStep(result, trace[0])
      case Stop(r) =>
        Finished(r, [poll], 1)
      case Again(wait) =>
        var rest := PollLoop(p, result, trace[1..]);
        Resume(if wait then [poll, Sleep(p.sleepTime)] else [poll], 1, rest)
  }

  /** Sleeps and polls of a run: one poll per consumed reply, one sleep per not-ready reply. */
  lemma {:induction false} PollLoopCounts(p: Poller, result: Dict, trace: seq<Response>)
    ensures var o := PollLoop(p, result, trace);
      && SleepCount(o.log) == NotReadyCount(Consumed(o, trace))
      && PostCount(o.log) == |Consumed(o, trace)|
    decreases |trace|
  {
    if |trace| > 0 {
      var poll := Post(p.url, p.query, None);
      if IsTerminal(trace[0]) {
        assert trace[..1] == [trace[0]];
        assert [trace[0]][1..] == [];
        assert [poll][1..] == [];
      } else {
        PollLoopCounts(p, result, trace[1..]);
        RoundCounts(poll, p.sleepTime, PollLoop(p, result, trace[1..]), trace);
      }
    }
  }

  /** Bookkeeping for one non-terminal iteration of `PollLoop`. */
  lemma RoundCounts(poll: Action, t: int, rest: PollRun, trace: seq<Response>)
    requires poll.Post? && |trace| > 0 && !IsTerminal(trace[0])
    requires rest.Finished? ==> rest.used <= |trace| - 1
    requires SleepCount(rest.log) == NotReadyCount(Consumed(rest, trace[1..]))
    requires PostCount(rest.log) == |Consumed(rest, trace[1..])|
    ensures var o := Resume(if IsNotReady(trace[0]) then [poll, Sleep(t)] else [poll], 1, rest);
      && SleepCount(o.log) == NotReadyCount(Consumed(o, trace))
      && PostCount(o.log) == |Consumed(o, trace)|
  {
    var round := if IsNotReady(trace[0]) then [poll, Sleep(t)] else [poll];
    SleepCountAppend(round, rest.log);
    PostCountAppend(round, rest.log);
    if IsNotReady(trace[0]) {
      assert round[1..][1..] == [];
    } else {
      assert round[1..] == [];
    }
    var o := Resume(round, 1, rest);
    var c := Consumed(o, trace);
    assert c == [trace[0]] + Consumed(rest, trace[1..]) by {
      if rest.Finished? {
        assert trace[..rest.used + 1] == [trace[0]] + trace[1..][..rest.used];
      } else {
        assert trace == [trace[0]] + trace[1..];
      }
    }
    NotReadyCountAppend([trace[0]], Consumed(rest, trace[1..]));
    assert NotReadyCount([trace[0]]) == (if IsNotReady(trace[0]) then 1 else 0) by {
      assert [trace[0]][1..] == [];
    }
  }


  /** `PollLoop` on a non-empty trace, one iteration unfolded. */
  lemma PollLoopUnfold(p: Poller, result: Dict, trace: seq<Response>)
    requires |trace| > 0
    ensures var poll := Post(p.url, p.query, None);
      PollLoop(p, result, trace) ==
        match PollStep(result, trace[0])
        case Stop(r) => Finished(r, [poll], 1)
        case Again(wait) =>
          Resume(if wait then [poll, Sleep(p.sleepTime)] else [poll], 1, PollLoop(p, result, trace[1..]))
  {
  }


  /** The poll loop as the source writes it: a `while` loop over the replies, returning at the first terminal one. */
  method RunPollLoop(p: Poller, result: Dict, trace: seq<Response>) returns (o: PollRun)
    ensures o == PollLoop(p, result, trace)
  {
    var log: seq<Action> := [];
    var i := 0;
    while i < |trace|
      invariant 0 <= i <= |trace|
      invariant PollLoop(p, result, trace) == Resume(log, i, PollLoop(p, result, trace[i..]))
    {
      var poll := Post(p.url, p.query, None);
      PollLoopUnfold(p, result, trace[i..]);
      assert trace[i..][1..] == trace[i + 1..];
      match PollStep(result, trace[i]) {
        case Stop(r) =>
          return Resume(log, i, Finished(r, [poll], 1));
        case Again(wait) =>
          var round := if wait then [poll, Sleep(p.sleepTime)] else [poll];
          ResumeResume(log, i, round, 1, PollLoop(p, result, trace[i + 1..]));
          log := log + round;
          i := i + 1;
      }
    }
    assert trace[i..] == [];
    o := Pending(log);
  }

  /**
    One `captcha_handler` call on a constructed solver. `fields` are the handler's own
    payload entries, written over the payload last; `file` is an attachment sent beside
    the payload. The submit reply decides whether polling starts; polling starts with one
    sleep and then runs `PollLoop` on the poll payload extended with the task id.
   */
  function Handle(s: Solver, fields: Dict, file: Option<Value>, submit: Response,
                  trace: seq<Response>): (h: Handled)
    ensures h.solver.sleepTime == s.sleepTime && h.solver.endpoints == s.endpoints
    ensures h.solver.postPayload == Overlay(s.postPayload, fields)
    ensures |h.log| >= 1 && h.log[0] == Post(s.endpoints.request, h.solver.postPayload, file)
    ensures h.Raised? <==> submit.Exc?
    ensures h.Raised? ==>
      && h.cause == submit.cause && |h.log| == 1
      && h.solver.result == s.result && h.solver.getPayload == s.getPayload
    ensures submit.Resp? && submit.status == 0 ==>
      && h.Returned? && h.polls == 0 && |h.log| == 1
      && h.solver.getPayload == s.getPayload
      && h.solver.result == s.result["error" := Bool(true)]["errorBody" := Classified(submit.request)]
    ensures submit.Resp? && submit.status != 0 ==>
      && h.solver.getPayload == s.getPayload["id" := Str(submit.request)]
      && "taskId" in h.solver.result && h.solver.result["taskId"] == Str(submit.request)
      && |h.log| >= 2 && h.log[1] == Sleep(s.sleepTime)
      && (h.Returned? <==> exists i :: 0 <= i < |trace| && IsTerminal(trace[i]))
      && (h.Returned? ==>
            && 1 <= h.polls <= |trace|
            && IsTerminal(trace[h.polls - 1])
            && (forall i :: 0 <= i < h.polls - 1 ==> !IsTerminal(trace[i]))
            && h.solver.result == Settle(s.result["taskId" := Str(submit.request)], trace[h.polls - 1]))
      && (h.Polling? ==> h.solver.result == s.result["taskId" := Str(submit.request)])
  {
    var posted := Overlay(s.postPayload, fields);
    var sent := s.(postPayload := posted);
    var submitted := [Post(s.endpoints.request, posted, file)];
    match submit
    case Exc(cause) => Raised(sent, submitted, cause)
    case Resp(status, request) =>
      if status == 0 then
        Returned(sent.(result := s.result["error" := Bool(true)]["errorBody" := Classified(request)]), submitted, 0)
      else PollPhase(sent, submitted, request, trace)
  }

  /** The rest of a handler call after a successful submit: record the task id, sleep once, then poll. */
  function PollPhase(sent: Solver, submitted: seq<Action>, request: string, trace: seq<Response>): (h: Handled)
    requires |submitted| == 1
    ensures !h.Raised?
    ensures h.solver == sent.(getPayload := h.solver.getPayload, result := h.solver.result)
    ensures h.solver.getPayload == sent.getPayload["id" := Str(request)]
    ensures "taskId" in h.solver.result && h.solver.result["taskId"] == Str(request)
    ensures |h.log| >= 2 && h.log[0] == submitted[0] && h.log[1] == Sleep(sent.sleepTime)
    ensures h.Returned? <==> exists i :: 0 <= i < |trace| && IsTerminal(trace[i])
    ensures h.Returned? ==>
      && 1 <= h.polls <= |trace|
      && IsTerminal(trace[h.polls - 1])
      && (forall i :: 0 <= i < h.polls - 1 ==> !IsTerminal(trace[i]))
      && h.solver.result == Settle(sent.result["taskId" := Str(request)], trace[h.polls - 1])
    ensures h.Polling? ==> h.solver.result == sent.result["taskId" := Str(request)]
  {
    var started := sent.result["taskId" := Str(request)];
    var query := sent.getPayload["id" := Str(request)];
    var o := PollLoop(Poller(sent.sleepTime, sent.endpoints.response, query), started, trace);
    var log := submitted + [Sleep(sent.sleepTime)] + o.log;
    assert log[0] == submitted[0] && log[1] == Sleep(sent.sleepTime);
    if o.Finished? then
      Returned(sent.(getPayload := query, result := o.result), log, o.used)
    else
      assert "taskId" in started && started["taskId"] == Str(request);
      Polling(sent.(getPayload := query, result := started), log)
  }
}
