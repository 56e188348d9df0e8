/** A concrete run in which the failure policy counts one failing result twice: the result is refused
    because too many outputs are waiting, and submitted again once there is room. */
module TurnWitness {
  import opened Wrappers
  import opened TurnModel
  import opened TurnTools
  import TP = ToolPolicy

  function Prelude(r: ToolRequest, r': ToolRequest, ok: TP.HostToolResult): seq<Op> {
    [StartOp, QueueRequestOp(r), QueueRequestOp(r'), SubmitHostResultOp(r.callId, ok)]
  }

  function Retry(r: ToolRequest, r': ToolRequest, bad: TP.HostToolResult): seq<Op> {
    [SubmitHostResultOp(r'.callId, bad), TakeOutputOp(r.callId), SubmitHostResultOp(r'.callId, bad)]
  }

  lemma {:induction false} RunConcat(t: Turn, a: seq<Op>, b: seq<Op>)
    ensures Run(t, a + b) == Run(Run(t, a), b)
    decreases |b|
  {
    hide Step;
    if b == [] {
      assert a + b == a;
    } else {
      var n := |b| - 1;
      RunConcat(t, a, b[..n]);
      assert (a + b)[..|a + b| - 1] == a + b[..n];
    }
  }

  lemma OneOp(t: Turn, a: Op)
    ensures Run(t, [a]) == Step(t, a)
  {
    hide Step;
    assert [a][..0] == [];
    assert Run(t, [a][..0]) == t;
  }

  lemma TwoOps(t: Turn, a: Op, b: Op)
    ensures Run(t, [a, b]) == Step(Step(t, a), b)
  {
    hide Step;
    OneOp(t, a);
    assert [a, b][..1] == [a];
  }

  lemma ThreeOps(t: Turn, a: Op, b: Op, c: Op)
    ensures Run(t, [a, b, c]) == Step(Step(Step(t, a), b), c)
  {
    hide Step;
    TwoOps(t, a, b);
    assert [a, b, c][..2] == [a, b];
  }

  lemma FourOps(t: Turn, a: Op, b: Op, c: Op, d: Op)
    ensures Run(t, [a, b, c, d]) == Step(Step(Step(Step(t, a), b), c), d)
  {
    hide Step;
    ThreeOps(t, a, b, c);
    var ops := [a, b, c, d];
    assert |ops| == 4 && ops[3] == d;
    assert ops[..3] == [a, b, c];
  }

  /** Both requests are pending and nothing has been answered. */
  predicate Asked(s: State, r: ToolRequest, r': ToolRequest) {
    && s.phase.AwaitingHostTools? && s.pending == map[r.callId := r, r'.callId := r']
    && s.submitted == map[] && s.accepted == map[] && s.hostResults == map[] && s.policyHistory == []
  }

  /** The first request is answered and its output waits; the second is pending. */
  predicate Waiting(s: State, r: ToolRequest, r': ToolRequest, ok: TP.HostToolResult) {
    && s.phase.AwaitingHostTools? && s.pending == map[r'.callId := r']
    && s.submitted.Keys == {r.callId} && s.accepted.Keys == {r.callId}
    && s.hostResults == map[r.callId := ok] && s.policyHistory == [None]
  }

  lemma BothAsked(wakeId: string, sessionId: string, limits: Limits, r: ToolRequest, r': ToolRequest)
    requires limits.maxPendingToolRequests >= 2 && r.callId != r'.callId
    ensures var s := QueueRequest(QueueRequest(Start(NewState(wakeId, sessionId, limits)).0, r).0, r').0;
            Asked(s, r, r') && s.limits == limits
  {
    var once := QueueRequest(Start(NewState(wakeId, sessionId, limits)).0, r).0;
    assert once.pending == map[r.callId := r];
  }

  lemma FirstAnswered(s: State, r: ToolRequest, r': ToolRequest, ok: TP.HostToolResult)
    requires Asked(s, r, r') && r.callId != r'.callId && s.limits.maxToolResults == 1 && ok.status.Succeeded?
    ensures var s' := SubmitHostResult(s, r.callId, ok).0;
            Waiting(s', r, r', ok) && s'.limits == s.limits
  {
    var recorded := s.(policyHistory := s.policyHistory + [TP.FailureOf(r.name, ok)]);
    HostSubmissionOutcome(s, r.callId, ok, recorded, PolicyDecision(s, r, ok));
    assert s.pending - {r.callId} == map[r'.callId := r'];
  }

  /** The second result is refused, but recorded. */
  lemma SecondRefused(s: State, r: ToolRequest, r': ToolRequest, ok: TP.HostToolResult, bad: TP.HostToolResult)
    requires Waiting(s, r, r', ok) && r.callId != r'.callId && s.limits.maxToolResults == 1
    ensures SubmitHostResult(s, r'.callId, bad) ==
            (s.(policyHistory := s.policyHistory + [TP.FailureOf(r'.name, bad)]),
             Err(BufferLimitExceeded(ToolResults, 1)))
  {
    var recorded := s.(policyHistory := s.policyHistory + [TP.FailureOf(r'.name, bad)]);
    HostSubmissionOutcome(s, r'.callId, bad, recorded, PolicyDecision(s, r', bad));
    assert |s.submitted.Keys| == 1;
  }

  /** With the first output taken, the same result is accepted and recorded again. */
  lemma SecondAccepted(s: State, r: ToolRequest, r': ToolRequest, ok: TP.HostToolResult, bad: TP.HostToolResult,
                       f: Option<TP.ToolFailure>)
    requires s.phase.AwaitingHostTools? && s.pending == map[r'.callId := r'] && s.submitted == map[]
             && s.accepted.Keys == {r.callId}
    requires s.hostResults == map[r.callId := ok] && s.policyHistory == [None, f] && f == TP.FailureOf(r'.name, bad)
    requires r.callId != r'.callId && s.limits.maxToolResults == 1
    ensures var s' := SubmitHostResult(s, r'.callId, bad).0;
            s'.hostResults == map[r.callId := ok, r'.callId := bad] && s'.policyHistory == [None, f, f]
  {
    var recorded := s.(policyHistory := s.policyHistory + [f]);
    HostSubmissionOutcome(s, r'.callId, bad, recorded, PolicyDecision(s, r', bad));
  }

  lemma TwoFailures(f: Option<TP.ToolFailure>)
    requires f.Some?
    ensures |TP.Failures([None, f, f])| == 2
  {
    var none: seq<Option<TP.ToolFailure>> := [];
    FailuresAppend(none, None);
    FailuresAppend([None], f);
    FailuresAppend([None, f], f);
    assert none + [None] == [None] && [None] + [f] == [None, f] && [None, f] + [f] == [None, f, f];
  }

  lemma RetryCountsTwice(t: Turn, r: ToolRequest, r': ToolRequest, ok: TP.HostToolResult, bad: TP.HostToolResult)
    requires Waiting(t.state, r, r', ok) && r.callId != r'.callId && t.state.limits.maxToolResults == 1
    requires ok.status.Succeeded? && !bad.status.Succeeded?
    ensures var refused := DoSubmitHostResult(t, r'.callId, bad);
            var end := DoSubmitHostResult(DoTakeOutput(refused, r.callId), r'.callId, bad);
            |TP.Failures(end.state.policyHistory)| == 2 && FailingIds(end.state.hostResults) == {r'.callId}
  {
    hide SubmitHostResult, TP.FailureOf, TP.Failures;
    var f := TP.FailureOf(r'.name, bad);
    SecondRefused(t.state, r, r', ok, bad);
    var taken := DoTakeOutput(DoSubmitHostResult(t, r'.callId, bad), r.callId).state;
    assert taken.submitted == map[];
    assert taken.policyHistory == [None, f];
    SecondAccepted(taken, r, r', ok, bad, f);
    TwoFailures(f);
  }

  /** One failing result is accepted, and two failures are on record. */
  lemma RefusedFailureIsCountedTwice(wakeId: string, sessionId: string, limits: Limits, r: ToolRequest, r': ToolRequest,
                                     ok: TP.HostToolResult, bad: TP.HostToolResult)
    requires limits.Valid() && limits.maxToolResults == 1 && limits.maxPendingToolRequests >= 2 && r.callId != r'.callId
    requires ok.status.Succeeded? && !bad.status.Succeeded?
    ensures var s := Run(NewTurn(wakeId, sessionId, limits), Prelude(r, r', ok) + Retry(r, r', bad)).state;
            |TP.Failures(s.policyHistory)| == 2 && FailingIds(s.hostResults) == {r'.callId}
  {
    var t0 := NewTurn(wakeId, sessionId, limits);
    var asked := DoQueueRequest(DoQueueRequest(DoStart(t0), r), r');
    BothAsked(wakeId, sessionId, limits, r, r');
    FirstAnswered(asked.state, r, r', ok);
    var waiting := DoSubmitHostResult(asked, r.callId, ok);
    RetryCountsTwice(waiting, r, r', ok, bad);
    WholeRun(t0, asked, waiting, r, r', ok, bad);
  }

  lemma WholeRun(t0: Turn, asked: Turn, waiting: Turn, r: ToolRequest, r': ToolRequest, ok: TP.HostToolResult,
                 bad: TP.HostToolResult)
    requires asked == DoQueueRequest(DoQueueRequest(DoStart(t0), r), r')
             && waiting == DoSubmitHostResult(asked, r.callId, ok)
    ensures Run(t0, Prelude(r, r', ok) + Retry(r, r', bad)) ==
            DoSubmitHostResult(DoTakeOutput(DoSubmitHostResult(waiting, r'.callId, bad), r.callId), r'.callId, bad)
  {
    hide DoStart, DoQueueRequest, DoSubmitHostResult, DoTakeOutput;
    RunConcat(t0, Prelude(r, r', ok), Retry(r, r', bad));
    FourOps(t0, StartOp, QueueRequestOp(r), QueueRequestOp(r'), SubmitHostResultOp(r.callId, ok));
    ThreeOps(waiting, SubmitHostResultOp(r'.callId, bad), TakeOutputOp(r.callId), SubmitHostResultOp(r'.callId, bad));
  }
}
