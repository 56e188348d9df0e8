/** What every run of a buffered brain turn keeps of its tool protocol: requests are handed to the
    host at most once and in order, each accepted output is taken at most once, and the failure
    policy's records account for every failing result. */
module TurnTools {
  import opened Wrappers
  import opened Text
  import opened TurnModel
  import TP = ToolPolicy

  type Pending = map<string, ToolRequest>
  type Outputs = map<string, TP.ToolOutput>
  type Dispositions = map<string, Option<TP.TurnDisposition>>
  type HostResults = map<string, TP.HostToolResult>
  type Decisions = map<string, TP.PolicyDecision>
  type Taken = seq<(string, TP.ToolOutput)>

  // ---------- invariants ----------

  ghost predicate PhaseInv(phase: Phase, pending: Pending, terminal: Option<TerminalDetails>) {
    && (phase.AwaitingHostTools? <==> pending != map[])
    && (terminal.Some? <==> phase.IsTerminal())
  }

  ghost function CallIds(requests: seq<ToolRequest>): set<string> {
    set i | 0 <= i < |requests| :: requests[i].callId
  }

  ghost predicate DistinctIds(requests: seq<ToolRequest>) {
    forall i, j :: 0 <= i < j < |requests| ==> requests[i].callId != requests[j].callId
  }

  /** A call is pending or answered, never both, and unless waiting work was discarded every
      requested call is one of the two. */
  ghost predicate RequestInv(pending: Pending, accepted: set<string>, requested: seq<ToolRequest>, discarded: bool) {
    && DistinctIds(requested)
    && (forall id :: id in pending ==> pending[id].callId == id && pending[id] in requested)
    && pending.Keys !! accepted
    && accepted <= CallIds(requested)
    && (!discarded ==> CallIds(requested) <= pending.Keys + accepted)
  }

  /** `a` can be read off `b` by skipping entries, in order. */
  ghost predicate Subsequence<T(!new)>(a: seq<T>, b: seq<T>) {
    if a == [] then true
    else if b == [] then false
    else
      || Subsequence(a, b[..|b| - 1])
      || (a[|a| - 1] == b[|b| - 1] && Subsequence(a[..|a| - 1], b[..|b| - 1]))
  }

  /** The ids still to be looked at are those of the latest requests, oldest first. */
  ghost predicate Outstanding(ids: seq<string>, requests: seq<ToolRequest>) {
    && |ids| <= |requests|
    && forall i :: 0 <= i < |ids| ==> ids[i] == requests[|requests| - |ids| + i].callId
  }

  ghost predicate Accounted(requests: seq<ToolRequest>, handedOut: seq<ToolRequest>, accepted: set<string>) {
    forall i :: 0 <= i < |requests| ==> requests[i] in handedOut || requests[i].callId in accepted
  }

  /** Handed-out requests are taken in order from the front of the requested ones, and a request
      that was looked at but not handed out had already been answered. */
  ghost predicate HandOutInv(undelivered: seq<string>, requested: seq<ToolRequest>, handedOut: seq<ToolRequest>,
                             accepted: set<string>, discarded: bool)
  {
    && Outstanding(undelivered, requested)
    && Subsequence(handedOut, requested[..|requested| - |undelivered|])
    && (!discarded ==> Accounted(requested[..|requested| - |undelivered|], handedOut, accepted))
  }

  ghost function TakenIds(taken: Taken): set<string> {
    set i | 0 <= i < |taken| :: taken[i].0
  }

  /** Each accepted output is waiting or was taken once, unless waiting work was discarded. */
  ghost predicate OutputInv(submitted: Outputs, accepted: Outputs, taken: Taken, discarded: bool) {
    && (forall id :: id in submitted ==> id in accepted && accepted[id] == submitted[id])
    && (forall i :: 0 <= i < |taken| ==> taken[i].0 in accepted && accepted[taken[i].0] == taken[i].1)
    && (forall i, j :: 0 <= i < j < |taken| ==> taken[i].0 != taken[j].0)
    && submitted.Keys !! TakenIds(taken)
    && (!discarded ==> accepted.Keys == submitted.Keys + TakenIds(taken))
    && (discarded ==> submitted == map[])
  }

  /** What is accepted for a host result is what the policy makes of it. */
  ghost predicate ResultTold(result: TP.HostToolResult, decision: TP.PolicyDecision, output: TP.ToolOutput,
                             maxBytes: nat)
  {
    && decision.providerOutput == output
    && TP.Tells(output, result, TP.DEFAULT_CONFIG.maxOutputChars, maxBytes)
    && decision.debugDetailId == result.debugDetailId
  }

  /** Decisions, results and accepted outputs belong together. */
  ghost predicate DecisionInv(decisions: Decisions, results: HostResults, accepted: Outputs, maxBytes: nat) {
    && decisions.Keys == results.Keys <= accepted.Keys
    && forall id :: id in results ==> ResultTold(results[id], decisions[id], accepted[id], maxBytes)
  }

  /** Dispositions are those of the accepted results and wait as long as the outputs do. */
  ghost predicate DispositionInv(dispositions: Dispositions, results: HostResults, submitted: set<string>) {
    && (forall id :: id in dispositions ==> id in results && dispositions[id] == results[id].turnDisposition)
    && (forall id :: id in submitted && id in results ==> id in dispositions)
  }

  ghost function FailingIds(results: HostResults): set<string> {
    set id | id in results && !results[id].status.Succeeded?
  }

  /** Every recorded failure is an accepted failing result or a failing submission that was
      refused for lack of room. */
  ghost predicate FailureInv(history: TP.History, results: HostResults, refusedFailures: nat) {
    |TP.Failures(history)| == |FailingIds(results)| + refusedFailures
  }

  ghost predicate RequestSide(t: Turn) {
    var s, log := t.state, t.log;
    && PhaseInv(s.phase, s.pending, s.terminal)
    && (log.discarded ==> s.phase.IsTerminal())
    && RequestInv(s.pending, s.accepted.Keys, log.requested, log.discarded)
    && HandOutInv(s.undelivered, log.requested, log.handedOut, s.accepted.Keys, log.discarded)
  }

  ghost predicate OutputSide(t: Turn) {
    var s, log := t.state, t.log;
    && OutputInv(s.submitted, s.accepted, log.taken, log.discarded)
    && DecisionInv(s.decisions, s.hostResults, s.accepted, s.limits.maxToolOutputBytes)
    && DispositionInv(s.dispositions, s.hostResults, s.submitted.Keys)
    && FailureInv(s.policyHistory, s.hostResults, log.refusedFailures)
  }

  ghost predicate ToolInv(t: Turn) {
    RequestSide(t) && OutputSide(t)
  }

  // ---------- helpers ----------

  lemma CallIdsAppend(requests: seq<ToolRequest>, request: ToolRequest)
    ensures CallIds(requests + [request]) == CallIds(requests) + {request.callId}
  {
    var more := requests + [request];
    forall id | id in CallIds(requests) + {request.callId} ensures id in CallIds(more) {
      if id != request.callId {
        var i :| 0 <= i < |requests| && requests[i].callId == id;
        assert more[i].callId == id;
      } else {
        assert more[|requests|].callId == id;
      }
    }
  }

  lemma TakenIdsAppend(taken: Taken, id: string, output: TP.ToolOutput)
    ensures TakenIds(taken + [(id, output)]) == TakenIds(taken) + {id}
  {
    var more := taken + [(id, output)];
    forall x | x in TakenIds(taken) + {id} ensures x in TakenIds(more) {
      if x in TakenIds(taken) {
        var i :| 0 <= i < |taken| && taken[i].0 == x;
        assert more[i].0 == x;
      } else {
        assert more[|taken|].0 == x;
      }
    }
  }

  lemma SubsequenceSkip<T(!new)>(a: seq<T>, b: seq<T>, x: T)
    requires Subsequence(a, b)
    ensures Subsequence(a, b + [x])
  {
    assert (b + [x])[..|b|] == b;
  }

  lemma SubsequenceTake<T(!new)>(a: seq<T>, b: seq<T>, x: T)
    requires Subsequence(a, b)
    ensures Subsequence(a + [x], b + [x])
  {
    assert (b + [x])[..|b|] == b && (a + [x])[..|a|] == a;
  }

  lemma {:induction false} SubsequenceOfLonger<T(!new)>(a: seq<T>, b: seq<T>, more: seq<T>)
    requires Subsequence(a, b)
    ensures Subsequence(a, b + more)
  {
    if more == [] {
      assert b + more == b;
    } else {
      var init, last := more[..|more| - 1], more[|more| - 1];
      SubsequenceOfLonger(a, b, init);
      SubsequenceSkip(a, b + init, last);
      assert b + more == (b + init) + [last];
    }
  }

  // ---------- operations that leave the tools alone ----------

  /** Everything about a turn except its stream, its phase and its terminal details. */
  ghost predicate SameTools(t: Turn, t': Turn) {
    var s, s' := t.state, t'.state;
    && s'.pending == s.pending && s'.undelivered == s.undelivered
    && s'.submitted == s.submitted && s'.dispositions == s.dispositions && s'.accepted == s.accepted
    && s'.hostResults == s.hostResults && s'.decisions == s.decisions && s'.policyHistory == s.policyHistory
    && t'.log.requested == t.log.requested && t'.log.handedOut == t.log.handedOut
    && t'.log.taken == t.log.taken && t'.log.refusedFailures == t.log.refusedFailures
    && t'.log.discarded == t.log.discarded
  }

  /** A step that leaves the tools alone and keeps the phase in step with them. */
  ghost predicate OnlyPhase(t: Turn, t': Turn) {
    && SameTools(t, t') && t'.state.limits == t.state.limits
    && PhaseInv(t'.state.phase, t'.state.pending, t'.state.terminal)
    && (t.state.phase.IsTerminal() ==> t'.state.phase.IsTerminal())
  }

  lemma OnlyPhaseKeepsInv(t: Turn, t': Turn)
    requires ToolInv(t) && OnlyPhase(t, t')
    ensures ToolInv(t')
  {
  }

  lemma FieldsAreOnlyPhase(t: Turn, s': State, log': Log)
    requires s' == t.state.(queue := s'.queue, nextSequence := s'.nextSequence, phase := s'.phase,
                            terminal := s'.terminal, providerState := s'.providerState)
    requires log' == t.log.(enqueued := log'.enqueued, drained := log'.drained)
    requires PhaseInv(s'.phase, s'.pending, s'.terminal)
    requires t.state.phase.IsTerminal() ==> s'.phase.IsTerminal()
    ensures OnlyPhase(t, Turn(s', log'))
  {
  }

  lemma PushShape(s: State, item: TurnStream.StreamItem, now: nat)
    requires PhaseInv(s.phase, s.pending, s.terminal) && s.phase.Running?
    ensures
      var s' := Push(s, item, now);
      && s' == s.(queue := s'.queue, nextSequence := s'.nextSequence, phase := s'.phase, terminal := s'.terminal)
      && PhaseInv(s'.phase, s'.pending, s'.terminal)
  {
  }

  lemma EnqueueShape(s: State, item: TurnStream.StreamItem, now: nat)
    ensures
      var s' := Enqueue(s, item, now).0;
      s' == s.(queue := s'.queue) || (s.phase.Running? && s' == Push(s, item, now))
  {
  }

  lemma EnqueueIsOnlyPhase(t: Turn, item: TurnStream.StreamItem, now: nat)
    requires PhaseInv(t.state.phase, t.state.pending, t.state.terminal)
    ensures OnlyPhase(t, DoEnqueue(t, item, now))
  {
    EnqueueShape(t.state, item, now);
    if t.state.phase.Running? {
      PushShape(t.state, item, now);
    }
    FieldsAreOnlyPhase(t, Enqueue(t.state, item, now).0, DoEnqueue(t, item, now).log);
  }

  lemma DrainIsOnlyPhase(t: Turn, maxItems: nat)
    requires PhaseInv(t.state.phase, t.state.pending, t.state.terminal)
    ensures OnlyPhase(t, DoDrainStream(t, maxItems))
  {
    FieldsAreOnlyPhase(t, DrainStream(t.state, maxItems).0, DoDrainStream(t, maxItems).log);
  }

  lemma StartIsOnlyPhase(t: Turn)
    requires PhaseInv(t.state.phase, t.state.pending, t.state.terminal)
    ensures OnlyPhase(t, DoStart(t))
  {
    FieldsAreOnlyPhase(t, Start(t.state).0, t.log);
  }

  lemma SetProviderStateIsOnlyPhase(t: Turn, providerState: string)
    requires PhaseInv(t.state.phase, t.state.pending, t.state.terminal)
    ensures OnlyPhase(t, DoSetProviderState(t, providerState))
  {
    FieldsAreOnlyPhase(t, SetProviderState(t.state, providerState).0, t.log);
  }

  lemma YieldIsOnlyPhase(t: Turn, now: nat)
    requires PhaseInv(t.state.phase, t.state.pending, t.state.terminal)
    ensures OnlyPhase(t, DoYield(t, now))
  {
    FieldsAreOnlyPhase(t, YieldTurn(t.state, now).0, t.log);
  }

  lemma RequireAttentionIsOnlyPhase(t: Turn, reason: Reason, now: nat)
    requires PhaseInv(t.state.phase, t.state.pending, t.state.terminal)
    ensures OnlyPhase(t, DoRequireAttention(t, reason, now))
  {
    FieldsAreOnlyPhase(t, RequireAttention(t.state, reason, now).0, t.log);
  }

  // ---------- requests ----------

  lemma RequestAdds(pending: Pending, accepted: set<string>, requested: seq<ToolRequest>, request: ToolRequest)
    requires RequestInv(pending, accepted, requested, false)
    requires request.callId !in pending && request.callId !in accepted
    ensures RequestInv(pending[request.callId := request], accepted, requested + [request], false)
  {
    CallIdsAppend(requested, request);
    forall i | 0 <= i < |requested| ensures requested[i].callId != request.callId {
      assert requested[i].callId in CallIds(requested);
    }
  }

  lemma HandOutAdds(undelivered: seq<string>, requested: seq<ToolRequest>, handedOut: seq<ToolRequest>,
                    accepted: set<string>, discarded: bool, request: ToolRequest)
    requires HandOutInv(undelivered, requested, handedOut, accepted, discarded)
    ensures HandOutInv(undelivered + [request.callId], requested + [request], handedOut, accepted, discarded)
  {
    var n := |requested| - |undelivered|;
    assert (requested + [request])[..n] == requested[..n];
  }

  lemma SameOutputs(t: Turn, t': Turn)
    requires OutputSide(t) && t'.state.limits == t.state.limits
    requires t'.state.submitted == t.state.submitted && t'.state.dispositions == t.state.dispositions
    requires t'.state.accepted == t.state.accepted && t'.state.hostResults == t.state.hostResults
    requires t'.state.decisions == t.state.decisions && t'.state.policyHistory == t.state.policyHistory
    requires t'.log.taken == t.log.taken && t'.log.discarded == t.log.discarded
    requires t'.log.refusedFailures == t.log.refusedFailures
    ensures OutputSide(t')
  {
  }

  lemma QueueRequestKeepsTools(t: Turn, request: ToolRequest)
    requires ToolInv(t)
    ensures ToolInv(DoQueueRequest(t, request))
  {
    hide RequestInv, HandOutInv, OutputSide;
    var s, log := t.state, t.log;
    if QueueRequest(s, request).1.Ok? {
      SameOutputs(t, DoQueueRequest(t, request));
      RequestAdds(s.pending, s.accepted.Keys, log.requested, request);
      HandOutAdds(s.undelivered, log.requested, log.handedOut, s.accepted.Keys, log.discarded, request);
      assert request.callId in s.pending[request.callId := request];
    }
  }

  lemma {:induction false} StillPendingInOrder(ids: seq<string>, pending: Pending, requests: seq<ToolRequest>,
                                               handedOut: seq<ToolRequest>, before: seq<ToolRequest>)
    requires |ids| == |requests|
    requires forall i :: 0 <= i < |ids| && ids[i] in pending ==> pending[ids[i]] == requests[i]
    requires Subsequence(handedOut, before)
    ensures Subsequence(handedOut + StillPending(ids, pending), before + requests)
  {
    if ids == [] {
      assert handedOut + [] == handedOut && before + requests == before;
    } else {
      var n := |ids| - 1;
      var earlier, last := StillPending(ids[..n], pending), requests[n];
      StillPendingInOrder(ids[..n], pending, requests[..n], handedOut, before);
      TurnStream.ConcatAssoc(before, requests[..n], [last]);
      assert requests == requests[..n] + [last];
      if ids[n] in pending {
        SubsequenceTake(handedOut + earlier, before + requests[..n], last);
        TurnStream.ConcatAssoc(handedOut, earlier, [last]);
      } else {
        SubsequenceSkip(handedOut + earlier, before + requests[..n], last);
      }
    }
  }

  lemma {:induction false} StillPendingAll(ids: seq<string>, pending: Pending, i: nat)
    requires i < |ids| && ids[i] in pending
    ensures pending[ids[i]] in StillPending(ids, pending)
  {
    var n := |ids| - 1;
    if i < n {
      StillPendingAll(ids[..n], pending, i);
    }
  }

  lemma PendingIsTheRequest(pending: Pending, accepted: set<string>, requested: seq<ToolRequest>, discarded: bool,
                            i: nat)
    requires RequestInv(pending, accepted, requested, discarded)
    requires i < |requested| && requested[i].callId in pending
    ensures pending[requested[i].callId] == requested[i]
  {
  }

  lemma DrainedAreAccounted(pending: Pending, ids: seq<string>, slice: seq<ToolRequest>, requested: seq<ToolRequest>,
                            before: seq<ToolRequest>, handedOut: seq<ToolRequest>, accepted: set<string>)
    requires RequestInv(pending, accepted, requested, false)
    requires |ids| == |slice| && forall i :: 0 <= i < |ids| ==> ids[i] == slice[i].callId && slice[i] in requested
    requires forall i :: 0 <= i < |ids| && ids[i] in pending ==> pending[ids[i]] == slice[i]
    requires Accounted(before, handedOut, accepted)
    ensures Accounted(before + slice, handedOut + StillPending(ids, pending), accepted)
  {
    var handed := StillPending(ids, pending);
    forall i | 0 <= i < |slice|
      ensures slice[i] in handed || slice[i].callId in accepted
    {
      if ids[i] in pending {
        StillPendingAll(ids, pending, i);
      } else {
        var k :| 0 <= k < |requested| && requested[k] == slice[i];
        assert requested[k].callId in CallIds(requested);
      }
    }
  }

  lemma HandOutDrains(pending: Pending, undelivered: seq<string>, requested: seq<ToolRequest>,
                      handedOut: seq<ToolRequest>, accepted: set<string>, discarded: bool, n: nat)
    requires RequestInv(pending, accepted, requested, discarded)
    requires HandOutInv(undelivered, requested, handedOut, accepted, discarded) && n <= |undelivered|
    ensures HandOutInv(undelivered[n..], requested, handedOut + StillPending(undelivered[..n], pending),
                       accepted, discarded)
  {
    hide Subsequence, StillPending;
    var base := |requested| - |undelivered|;
    var ids, slice, before := undelivered[..n], requested[base..base + n], requested[..base];
    forall i | 0 <= i < n && ids[i] in pending ensures pending[ids[i]] == slice[i] {
      PendingIsTheRequest(pending, accepted, requested, discarded, base + i);
    }
    StillPendingInOrder(ids, pending, slice, handedOut, before);
    if !discarded {
      DrainedAreAccounted(pending, ids, slice, requested, before, handedOut, accepted);
    }
    assert requested[..base + n] == before + slice;
  }

  lemma DrainRequestsKeepsTools(t: Turn, maxRequests: nat)
    requires ToolInv(t)
    ensures ToolInv(DoDrainRequests(t, maxRequests))
  {
    var n := Min(Max(maxRequests, 1), |t.state.undelivered|);
    HandOutDrains(t.state.pending, t.state.undelivered, t.log.requested, t.log.handedOut,
                  t.state.accepted.Keys, t.log.discarded, n);
  }

  // ---------- outputs ----------

  lemma RequestAnswered(pending: Pending, accepted: set<string>, requested: seq<ToolRequest>, discarded: bool,
                        id: string)
    requires RequestInv(pending, accepted, requested, discarded) && id in pending
    ensures RequestInv(pending - {id}, accepted + {id}, requested, discarded)
  {
    assert pending[id] in requested;
    var i :| 0 <= i < |requested| && requested[i] == pending[id];
    assert requested[i].callId in CallIds(requested);
  }

  lemma HandOutAnswered(undelivered: seq<string>, requested: seq<ToolRequest>, handedOut: seq<ToolRequest>,
                        accepted: set<string>, discarded: bool, id: string)
    requires HandOutInv(undelivered, requested, handedOut, accepted, discarded)
    ensures HandOutInv(undelivered, requested, handedOut, accepted + {id}, discarded)
  {
  }

  lemma OutputAccepted(submitted: Outputs, accepted: Outputs, taken: Taken, discarded: bool, id: string,
                       output: TP.ToolOutput)
    requires OutputInv(submitted, accepted, taken, discarded) && id !in accepted && !discarded
    ensures OutputInv(submitted[id := output], accepted[id := output], taken, discarded)
  {
  }

  lemma DecisionsBesideNewOutput(decisions: Decisions, results: HostResults, accepted: Outputs, id: string,
                                 output: TP.ToolOutput, maxBytes: nat)
    requires DecisionInv(decisions, results, accepted, maxBytes) && id !in accepted
    ensures DecisionInv(decisions, results, accepted[id := output], maxBytes)
  {
  }

  lemma DispositionsBesideNewOutput(dispositions: Dispositions, results: HostResults, submitted: set<string>,
                                    id: string)
    requires DispositionInv(dispositions, results, submitted) && id !in results
    ensures DispositionInv(dispositions, results, submitted + {id})
  {
  }

  /** The state after accepting an output for a pending call. */
  ghost function WithOutput(s: State, id: string, output: TP.ToolOutput): State {
    s.(pending := s.pending - {id}, submitted := s.submitted[id := output], accepted := s.accepted[id := output],
       phase := if s.pending - {id} == map[] then Running else AwaitingHostTools)
  }

  lemma SubmitOutputShape(s: State, id: string, output: TP.ToolOutput)
    ensures
      var (s', receipt) := SubmitOutput(s, id, output);
      || s' == s
      || (&& receipt == Ok(Accepted) && id in s.pending && s.phase.AwaitingHostTools? && id !in s.accepted
          && s' == WithOutput(s, id, output))
  {
  }

  lemma AcceptedOutputKeepsRequests(t: Turn, id: string, output: TP.ToolOutput)
    requires RequestSide(t) && id in t.state.pending && t.state.phase.AwaitingHostTools?
    ensures RequestSide(t.(state := WithOutput(t.state, id, output)))
  {
    var s, log := t.state, t.log;
    RequestAnswered(s.pending, s.accepted.Keys, log.requested, log.discarded, id);
    HandOutAnswered(s.undelivered, log.requested, log.handedOut, s.accepted.Keys, log.discarded, id);
    assert s.accepted[id := output].Keys == s.accepted.Keys + {id};
  }

  lemma AcceptedOutputKeepsOutputs(t: Turn, id: string, output: TP.ToolOutput)
    requires OutputSide(t) && id !in t.state.accepted && !t.log.discarded
    ensures OutputSide(t.(state := WithOutput(t.state, id, output)))
  {
    var s, log := t.state, t.log;
    OutputAccepted(s.submitted, s.accepted, log.taken, log.discarded, id, output);
    DecisionsBesideNewOutput(s.decisions, s.hostResults, s.accepted, id, output, s.limits.maxToolOutputBytes);
    DispositionsBesideNewOutput(s.dispositions, s.hostResults, s.submitted.Keys, id);
    assert s.submitted[id := output].Keys == s.submitted.Keys + {id};
  }

  lemma SubmitOutputKeepsTools(t: Turn, id: string, output: TP.ToolOutput)
    requires ToolInv(t)
    ensures ToolInv(DoSubmitOutput(t, id, output))
  {
    SubmitOutputShape(t.state, id, output);
    if SubmitOutput(t.state, id, output).0 != t.state {
      AcceptedOutputKeepsRequests(t, id, output);
      AcceptedOutputKeepsOutputs(t, id, output);
    }
  }

  lemma OutputTaken(submitted: Outputs, accepted: Outputs, taken: Taken, discarded: bool, id: string)
    requires OutputInv(submitted, accepted, taken, discarded) && id in submitted
    ensures OutputInv(submitted - {id}, accepted, taken + [(id, submitted[id])], discarded)
  {
    TakenIdsAppend(taken, id, submitted[id]);
    forall i | 0 <= i < |taken| ensures taken[i].0 != id {
      assert taken[i].0 in TakenIds(taken);
    }
  }

  lemma TakeOutputKeepsTools(t: Turn, id: string)
    requires ToolInv(t)
    ensures ToolInv(DoTakeOutput(t, id))
  {
    if id in t.state.submitted {
      OutputTaken(t.state.submitted, t.state.accepted, t.log.taken, t.log.discarded, id);
    }
  }

  lemma PollHostOutputKeepsTools(t: Turn, id: string)
    requires ToolInv(t)
    ensures ToolInv(DoPollHostOutput(t, id))
  {
    if id in t.state.submitted {
      OutputTaken(t.state.submitted, t.state.accepted, t.log.taken, t.log.discarded, id);
    }
  }

  // ---------- host results ----------

  lemma FailuresAppend(history: TP.History, failure: Option<TP.ToolFailure>)
    ensures TP.Failures(history + [failure]) == TP.Failures(history) + if failure.Some? then [failure.value] else []
  {
    assert (history + [failure])[..|history|] == history;
  }

  lemma FailureCounted(history: TP.History, results: HostResults, refused: nat, id: string,
                       result: TP.HostToolResult, failure: Option<TP.ToolFailure>)
    requires FailureInv(history, results, refused) && id !in results
    requires failure.None? <==> result.status.Succeeded?
    ensures FailureInv(history + [failure], results[id := result], refused)
  {
    FailuresAppend(history, failure);
    assert FailingIds(results[id := result]) == FailingIds(results) + if failure.Some? then {id} else {};
  }

  lemma FailureRefused(history: TP.History, results: HostResults, refused: nat, failure: Option<TP.ToolFailure>)
    requires FailureInv(history, results, refused)
    ensures FailureInv(history + [failure], results, refused + if failure.Some? then 1 else 0)
  {
    FailuresAppend(history, failure);
  }

  /** The state after accepting a host result and the decision taken on it. */
  ghost function WithHostResult(s: State, id: string, result: TP.HostToolResult, decision: TP.PolicyDecision): State {
    WithOutput(s, id, decision.providerOutput).(
      dispositions := s.dispositions[id := result.turnDisposition],
      hostResults := s.hostResults[id := result],
      decisions := s.decisions[id := decision])
  }

  lemma DecidedOutcome(s: State, id: string, result: TP.HostToolResult, decision: TP.PolicyDecision)
    requires s.phase.AwaitingHostTools? && id in s.pending && id !in s.accepted
    requires ByteLen(decision.providerOutput.output) <= s.limits.maxToolOutputBytes
    ensures SubmitDecided(s, id, result, decision) ==
      if |s.submitted| >= s.limits.maxToolResults
      then (s, Err(BufferLimitExceeded(ToolResults, s.limits.maxToolResults)))
      else (WithHostResult(s, id, result, decision), Ok(HostSubmission(Accepted, decision)))
  {
  }

  lemma DecisionAdded(decisions: Decisions, results: HostResults, accepted: Outputs,
                      id: string, result: TP.HostToolResult, decision: TP.PolicyDecision, maxBytes: nat)
    requires DecisionInv(decisions, results, accepted, maxBytes) && id !in accepted
    requires ResultTold(result, decision, decision.providerOutput, maxBytes)
    ensures DecisionInv(decisions[id := decision], results[id := result], accepted[id := decision.providerOutput],
                        maxBytes)
  {
  }

  lemma DispositionAdded(dispositions: Dispositions, results: HostResults, submitted: set<string>,
                         id: string, result: TP.HostToolResult)
    requires DispositionInv(dispositions, results, submitted)
    ensures DispositionInv(dispositions[id := result.turnDisposition], results[id := result], submitted + {id})
  {
  }

  lemma AcceptedHostResultKeepsRequests(t: Turn, id: string, result: TP.HostToolResult, recorded: State,
                                        decision: TP.PolicyDecision)
    requires RequestSide(t) && id in t.state.pending && t.state.phase.AwaitingHostTools?
    requires recorded == t.state.(policyHistory := recorded.policyHistory)
    ensures RequestSide(t.(state := WithHostResult(recorded, id, result, decision)))
  {
    AcceptedOutputKeepsRequests(t, id, decision.providerOutput);
  }

  lemma AcceptedHostResultKeepsOutputs(t: Turn, id: string, result: TP.HostToolResult, recorded: State,
                                       failure: Option<TP.ToolFailure>, decision: TP.PolicyDecision)
    requires OutputSide(t) && id !in t.state.accepted && !t.log.discarded
    requires failure.None? <==> result.status.Succeeded?
    requires recorded == t.state.(policyHistory := t.state.policyHistory + [failure])
    requires ResultTold(result, decision, decision.providerOutput, t.state.limits.maxToolOutputBytes)
    ensures OutputSide(t.(state := WithHostResult(recorded, id, result, decision)))
  {
    var s, log, output := t.state, t.log, decision.providerOutput;
    OutputAccepted(s.submitted, s.accepted, log.taken, log.discarded, id, output);
    DecisionAdded(s.decisions, s.hostResults, s.accepted, id, result, decision, s.limits.maxToolOutputBytes);
    DispositionAdded(s.dispositions, s.hostResults, s.submitted.Keys, id, result);
    assert s.submitted[id := output].Keys == s.submitted.Keys + {id};
    FailureCounted(s.policyHistory, s.hostResults, log.refusedFailures, id, result, failure);
  }

  lemma RefusedHostResultKeepsTools(t: Turn, recorded: State, failure: Option<TP.ToolFailure>, refusedFailures: nat)
    requires ToolInv(t)
    requires recorded == t.state.(policyHistory := t.state.policyHistory + [failure])
    requires refusedFailures == t.log.refusedFailures + if failure.Some? then 1 else 0
    ensures ToolInv(Turn(recorded, t.log.(refusedFailures := refusedFailures)))
  {
    FailureRefused(t.state.policyHistory, t.state.hostResults, t.log.refusedFailures, failure);
  }

  lemma DecisionTold(s: State, request: ToolRequest, result: TP.HostToolResult, decision: TP.PolicyDecision)
    requires decision == PolicyDecision(s, request, result)
    ensures ResultTold(result, decision, decision.providerOutput, s.limits.maxToolOutputBytes)
  {
    TP.DecisionTellsTheResult(TP.DEFAULT_CONFIG, s.policyHistory + [TP.FailureOf(request.name, result)],
                              request.name, result, s.limits.maxToolOutputBytes);
  }

  lemma DecisionFits(s: State, request: ToolRequest, result: TP.HostToolResult)
    ensures ByteLen(PolicyDecision(s, request, result).providerOutput.output) <= s.limits.maxToolOutputBytes
  {
    TP.BoundedOutputFits(result.outputText, TP.DEFAULT_CONFIG.maxOutputChars, s.limits.maxToolOutputBytes);
  }

  /** A new result for a pending call is accepted unless too many outputs are waiting; it is never
      refused for its size. */
  lemma HostSubmissionOutcome(s: State, id: string, result: TP.HostToolResult, recorded: State,
                              decision: TP.PolicyDecision)
    requires s.phase.AwaitingHostTools? && id in s.pending && id !in s.accepted && id !in s.hostResults
    requires recorded == s.(policyHistory := s.policyHistory + [TP.FailureOf(s.pending[id].name, result)])
    requires decision == PolicyDecision(s, s.pending[id], result)
    ensures SubmitHostResult(s, id, result) ==
      if |s.submitted| >= s.limits.maxToolResults
      then (recorded, Err(BufferLimitExceeded(ToolResults, s.limits.maxToolResults)))
      else (WithHostResult(recorded, id, result, decision), Ok(HostSubmission(Accepted, decision)))
  {
    DecisionFits(s, s.pending[id], result);
    DecidedOutcome(recorded, id, result, decision);
  }

  lemma HostSubmissionStep(t: Turn, id: string, result: TP.HostToolResult, recorded: State,
                           failure: Option<TP.ToolFailure>, decision: TP.PolicyDecision)
    requires t.state.phase.AwaitingHostTools? && id in t.state.pending
    requires id !in t.state.accepted && id !in t.state.hostResults
    requires failure == TP.FailureOf(t.state.pending[id].name, result)
    requires decision == PolicyDecision(t.state, t.state.pending[id], result)
    requires recorded == t.state.(policyHistory := t.state.policyHistory + [failure])
    ensures
      || DoSubmitHostResult(t, id, result) == t.(state := WithHostResult(recorded, id, result, decision))
      || DoSubmitHostResult(t, id, result) ==
           Turn(recorded, t.log.(refusedFailures := t.log.refusedFailures + if failure.Some? then 1 else 0))
  {
    HostSubmissionOutcome(t.state, id, result, recorded, decision);
  }

  lemma SubmitHostResultKeepsTools(t: Turn, id: string, result: TP.HostToolResult)
    requires ToolInv(t)
    ensures ToolInv(DoSubmitHostResult(t, id, result))
  {
    var s := t.state;
    if id !in s.hostResults && s.phase.AwaitingHostTools? && id in s.pending {
      var failure, decision := TP.FailureOf(s.pending[id].name, result), PolicyDecision(s, s.pending[id], result);
      var recorded := s.(policyHistory := s.policyHistory + [failure]);
      HostSubmissionStep(t, id, result, recorded, failure, decision);
      AcceptedHostResultKeepsRequests(t, id, result, recorded, decision);
      DecisionTold(s, s.pending[id], result, decision);
      AcceptedHostResultKeepsOutputs(t, id, result, recorded, failure, decision);
      RefusedHostResultKeepsTools(t, recorded, failure, t.log.refusedFailures + if failure.Some? then 1 else 0);
    }
  }

  // ---------- endings ----------

  lemma HandOutDiscarded(undelivered: seq<string>, requested: seq<ToolRequest>, handedOut: seq<ToolRequest>,
                         accepted: set<string>, discarded: bool)
    requires HandOutInv(undelivered, requested, handedOut, accepted, discarded)
    ensures HandOutInv([], requested, handedOut, accepted, true)
  {
    var base := |requested| - |undelivered|;
    SubsequenceOfLonger(handedOut, requested[..base], requested[base..]);
    assert requested[..base] + requested[base..] == requested == requested[..|requested|];
  }

  lemma EndTurnKeepsTools(t: Turn, phase: Phase, reason: Reason, now: nat)
    requires ToolInv(t) && phase.IsTerminal()
    ensures ToolInv(Turn(EndTurn(t.state, phase, reason, now), t.log.(discarded := true)))
  {
    HandOutDiscarded(t.state.undelivered, t.log.requested, t.log.handedOut, t.state.accepted.Keys, t.log.discarded);
  }

  lemma FailKeepsTools(t: Turn, reason: Reason, now: nat)
    requires ToolInv(t)
    ensures ToolInv(DoFail(t, reason, now))
  {
    EndTurnKeepsTools(t, Failed, reason, now);
  }

  lemma CancelKeepsTools(t: Turn, reason: Reason, now: nat)
    requires ToolInv(t)
    ensures ToolInv(DoCancel(t, reason, now))
  {
    EndTurnKeepsTools(t, Cancelled, reason, now);
  }

  lemma AnOpenTurn(t: Turn)
    requires ToolInv(t)
    ensures PhaseInv(t.state.phase, t.state.pending, t.state.terminal)
    ensures t.log.discarded ==> t.state.phase.IsTerminal()
  {
  }

  lemma EnqueueProviderKeepsTools(t: Turn, item: TurnStream.StreamItem, now: nat)
    requires ToolInv(t)
    ensures ToolInv(DoEnqueueProvider(t, item, now))
  {
    hide RequestSide, OutputSide;
    AnOpenTurn(t);
    EnqueueIsOnlyPhase(t, item, now);
    OnlyPhaseKeepsInv(t, DoEnqueue(t, item, now));
    EndTurnKeepsTools(DoEnqueue(t, item, now), Failed, ProviderStreamEnqueueFailed, now);
  }

  // ---------- all operations ----------

  /** Operations that touch the stream or the phase but none of the tool protocol. */
  predicate LeavesToolsAlone(op: Op) {
    op.StartOp? || op.EnqueueOp? || op.SetProviderStateOp? || op.YieldOp? || op.RequireAttentionOp? || op.DrainStreamOp?
  }

  lemma PhaseOpsAreOnlyPhase(t: Turn, op: Op)
    requires LeavesToolsAlone(op) && PhaseInv(t.state.phase, t.state.pending, t.state.terminal)
    ensures OnlyPhase(t, Step(t, op))
  {
    match op
    case StartOp => StartIsOnlyPhase(t);
    case EnqueueOp(item, now) => EnqueueIsOnlyPhase(t, item, now);
    case SetProviderStateOp(p) => SetProviderStateIsOnlyPhase(t, p);
    case YieldOp(now) => YieldIsOnlyPhase(t, now);
    case RequireAttentionOp(reason, now) => RequireAttentionIsOnlyPhase(t, reason, now);
    case DrainStreamOp(maxItems) => DrainIsOnlyPhase(t, maxItems);
  }

  lemma StepKeepsTools(t: Turn, op: Op)
    requires ToolInv(t)
    ensures ToolInv(Step(t, op))
  {
    if LeavesToolsAlone(op) {
      PhaseOpsAreOnlyPhase(t, op);
      OnlyPhaseKeepsInv(t, Step(t, op));
    } else {
      match op
      case EnqueueProviderOp(item, now) => EnqueueProviderKeepsTools(t, item, now);
      case QueueRequestOp(request) => QueueRequestKeepsTools(t, request);
      case DrainRequestsOp(maxRequests) => DrainRequestsKeepsTools(t, maxRequests);
      case SubmitOutputOp(callId, output) => SubmitOutputKeepsTools(t, callId, output);
      case SubmitHostResultOp(callId, result) => SubmitHostResultKeepsTools(t, callId, result);
      case TakeOutputOp(callId) => TakeOutputKeepsTools(t, callId);
      case PollHostOutputOp(callId) => PollHostOutputKeepsTools(t, callId);
      case FailOp(reason, now) => FailKeepsTools(t, reason, now);
      case CancelOp(reason, now) => CancelKeepsTools(t, reason, now);
    }
  }
}
