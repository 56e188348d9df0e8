/** The promises of a buffered brain turn, for every run from a new turn and every continuation of
    a run. */
module TurnRuns {
  import opened Wrappers
  import opened Text
  import opened TurnStream
  import opened TurnModel
  import opened TurnSafety
  import opened TurnTools
  import TP = ToolPolicy

  ghost predicate Inv(t: Turn) {
    StreamInv(t) && ToolInv(t)
  }

  lemma StepKeepsInv(t: Turn, op: Op)
    requires Inv(t)
    ensures Inv(Step(t, op))
  {
    StepKeepsStream(t, op);
    StepKeepsTools(t, op);
  }

  lemma {:induction false} ContinuationKeepsInv(t: Turn, ops: seq<Op>)
    requires Inv(t)
    ensures Inv(Run(t, ops))
  {
    if ops != [] {
      ContinuationKeepsInv(t, ops[..|ops| - 1]);
      StepKeepsInv(Run(t, ops[..|ops| - 1]), ops[|ops| - 1]);
    }
  }

  lemma NewTurnInv(wakeId: string, sessionId: string, limits: Limits)
    ensures Inv(NewTurn(wakeId, sessionId, limits))
  {
  }

  lemma RunKeepsInv(wakeId: string, sessionId: string, limits: Limits, ops: seq<Op>)
    ensures Inv(Run(NewTurn(wakeId, sessionId, limits), ops))
  {
    NewTurnInv(wakeId, sessionId, limits);
    ContinuationKeepsInv(NewTurn(wakeId, sessionId, limits), ops);
  }

  // ---------- the stream ----------

  /** Over every run, what was drained followed by what is queued reads exactly like what was accepted
      and is numbered 1, 2, 3, ..., and no two neighbours in the queue are both text, or both reasoning of
      one format. */
  lemma CoalescingIsLossless(wakeId: string, sessionId: string, limits: Limits, ops: seq<Op>)
    ensures
      var t := Run(NewTurn(wakeId, sessionId, limits), ops);
      var delivered := t.log.drained + t.state.queue;
      && Meaning(delivered) == ExpandAll(t.log.enqueued)
      && (forall i :: 0 <= i < |delivered| ==> delivered[i].sequence == i + 1)
      && FullyCoalesced(t.state.queue)
  {
    RunKeepsInv(wakeId, sessionId, limits, ops);
  }

  /** Over every run, the byte limit is exceeded only by one oversized delta at the head of the
      queue with no delta behind it, and the item limit only by one terminal item at the end. */
  lemma QueueStaysBounded(wakeId: string, sessionId: string, limits: Limits, ops: seq<Op>)
    ensures WithinLimits(Run(NewTurn(wakeId, sessionId, limits), ops).state.queue, limits)
  {
    NewTurnInv(wakeId, sessionId, limits);
    ContinuationKeepsInv(NewTurn(wakeId, sessionId, limits), ops);
    RunFollows(NewTurn(wakeId, sessionId, limits), ops);
  }

  // ---------- what later steps can and cannot change ----------

  ghost predicate Extends<V(!new)>(m: map<string, V>, m': map<string, V>) {
    forall id :: id in m ==> id in m' && m'[id] == m[id]
  }

  ghost predicate IsSuffix(suffix: Queue, queue: Queue) {
    |suffix| <= |queue| && suffix == queue[|queue| - |suffix|..]
  }

  /** A terminal phase is final, with its details, except that a turn waiting for an operator can
      still be cancelled. */
  ghost predicate PhaseFollows(phase: Phase, terminal: Option<TerminalDetails>, phase': Phase,
                               terminal': Option<TerminalDetails>) {
    phase.IsTerminal() ==>
      (phase' == phase && terminal' == terminal) || (phase.AttentionRequired? && phase'.Cancelled?)
  }

  ghost predicate IdentityFollows(s: State, s': State) {
    s'.limits == s.limits && s'.wakeId == s.wakeId && s'.sessionId == s.sessionId
  }

  /** Accepted outputs, host results and their decisions are never changed or dropped. */
  ghost predicate RecordsFollow(s: State, s': State) {
    && Extends(s.accepted, s'.accepted)
    && Extends(s.hostResults, s'.hostResults)
    && Extends(s.decisions, s'.decisions)
  }

  /** A turn that has ended accepts nothing more; its queue can only be drained. */
  ghost predicate StreamFollows(t: Turn, t': Turn) {
    t.state.phase.IsTerminal() ==> t'.log.enqueued == t.log.enqueued && IsSuffix(t'.state.queue, t.state.queue)
  }

  ghost predicate Follows(t: Turn, t': Turn) {
    && IdentityFollows(t.state, t'.state)
    && PhaseFollows(t.state.phase, t.state.terminal, t'.state.phase, t'.state.terminal)
    && RecordsFollow(t.state, t'.state)
    && StreamFollows(t, t')
    && t.log.taken <= t'.log.taken
  }

  lemma FollowsTransitive(t: Turn, t': Turn, t'': Turn)
    requires Follows(t, t') && Follows(t', t'')
    ensures Follows(t, t'')
  {
  }

  /** A step that keeps every record and, in a turn that has ended, the phase and the stream. */
  lemma KeptRecordsFollow(t: Turn, t': Turn)
    requires IdentityFollows(t.state, t'.state)
    requires t'.state.accepted == t.state.accepted && t'.state.hostResults == t.state.hostResults
    requires t'.state.decisions == t.state.decisions && t.log.taken <= t'.log.taken
    requires PhaseFollows(t.state.phase, t.state.terminal, t'.state.phase, t'.state.terminal)
    requires StreamFollows(t, t')
    ensures Follows(t, t')
  {
  }

  lemma EndedRefuses(s: State, item: StreamItem, now: nat)
    requires s.phase.IsTerminal()
    ensures Enqueue(s, item, now).0 == s && Enqueue(s, item, now).1.Err?
  {
  }

  lemma OpenTurnFollows(t: Turn, t': Turn)
    requires !t.state.phase.IsTerminal() && t'.log.taken == t.log.taken
    requires t'.state == t.state.(queue := t'.state.queue, nextSequence := t'.state.nextSequence,
                                  phase := t'.state.phase, terminal := t'.state.terminal)
    ensures Follows(t, t')
  {
  }

  lemma PushedFields(s: State, item: StreamItem, now: nat)
    ensures var s' := Push(s, item, now);
            s' == s.(queue := s'.queue, nextSequence := s'.nextSequence, phase := s'.phase, terminal := s'.terminal)
  {
  }

  lemma EnqueueFollows(t: Turn, item: StreamItem, now: nat)
    ensures Follows(t, DoEnqueue(t, item, now))
  {
    if t.state.phase.IsTerminal() {
      EndedRefuses(t.state, item, now);
      KeptRecordsFollow(t, DoEnqueue(t, item, now));
    } else {
      EnqueueShape(t.state, item, now);
      PushedFields(t.state, item, now);
      OpenTurnFollows(t, DoEnqueue(t, item, now));
    }
  }

  lemma DrainFollows(t: Turn, maxItems: nat)
    ensures Follows(t, DoDrainStream(t, maxItems))
  {
    KeptRecordsFollow(t, DoDrainStream(t, maxItems));
  }

  lemma EndTurnFollows(t: Turn, phase: Phase, reason: Reason, now: nat, log': Log)
    requires !t.state.phase.IsTerminal() || (t.state.phase.AttentionRequired? && phase.Cancelled?)
    requires log' == t.log.(discarded := log'.discarded)
    ensures Follows(t, Turn(EndTurn(t.state, phase, reason, now), log'))
  {
    KeptRecordsFollow(t, Turn(EndTurn(t.state, phase, reason, now), log'));
  }

  lemma FailFollows(t: Turn, reason: Reason, now: nat)
    ensures Follows(t, DoFail(t, reason, now))
  {
    if !t.state.phase.IsTerminal() {
      EndTurnFollows(t, Failed, reason, now, DoFail(t, reason, now).log);
    }
  }

  lemma CancelFollows(t: Turn, reason: Reason, now: nat)
    ensures Follows(t, DoCancel(t, reason, now))
  {
    if !t.state.phase.IsTerminal() || t.state.phase.AttentionRequired? {
      EndTurnFollows(t, Cancelled, reason, now, DoCancel(t, reason, now).log);
    }
  }

  lemma EnqueueProviderFollows(t: Turn, item: StreamItem, now: nat)
    ensures Follows(t, DoEnqueueProvider(t, item, now))
  {
    var t' := DoEnqueue(t, item, now);
    EnqueueFollows(t, item, now);
    if DoEnqueueProvider(t, item, now).state != t'.state {
      EndTurnFollows(t', Failed, ProviderStreamEnqueueFailed, now, DoEnqueueProvider(t, item, now).log);
      FollowsTransitive(t, t', DoEnqueueProvider(t, item, now));
    }
  }

  lemma QueueRequestFollows(t: Turn, request: ToolRequest)
    ensures Follows(t, DoQueueRequest(t, request))
  {
    KeptRecordsFollow(t, DoQueueRequest(t, request));
  }

  lemma DrainRequestsFollows(t: Turn, maxRequests: nat)
    ensures Follows(t, DoDrainRequests(t, maxRequests))
  {
    KeptRecordsFollow(t, DoDrainRequests(t, maxRequests));
  }

  lemma TakeFollows(t: Turn, callId: string)
    ensures Follows(t, DoTakeOutput(t, callId)) && Follows(t, DoPollHostOutput(t, callId))
  {
    KeptRecordsFollow(t, DoTakeOutput(t, callId));
    KeptRecordsFollow(t, DoPollHostOutput(t, callId));
  }

  predicate IsPhaseChange(op: Op) {
    op.StartOp? || op.SetProviderStateOp? || op.YieldOp? || op.RequireAttentionOp?
  }

  lemma PhaseOpsFollow(t: Turn, op: Op)
    requires IsPhaseChange(op)
    ensures Follows(t, Step(t, op))
  {
    match op
    case StartOp => KeptRecordsFollow(t, DoStart(t));
    case SetProviderStateOp(p) => KeptRecordsFollow(t, DoSetProviderState(t, p));
    case YieldOp(now) => KeptRecordsFollow(t, DoYield(t, now));
    case RequireAttentionOp(reason, now) => KeptRecordsFollow(t, DoRequireAttention(t, reason, now));
  }

  lemma SubmitOutputFollows(t: Turn, callId: string, output: TP.ToolOutput)
    ensures Follows(t, DoSubmitOutput(t, callId, output))
  {
    SubmitOutputShape(t.state, callId, output);
  }

  lemma WithHostResultFollows(t: Turn, callId: string, result: TP.HostToolResult, recorded: State,
                              decision: TP.PolicyDecision)
    requires callId !in t.state.accepted && callId !in t.state.hostResults && callId !in t.state.decisions
    requires !t.state.phase.IsTerminal()
    requires recorded == t.state.(policyHistory := recorded.policyHistory)
    ensures Follows(t, t.(state := WithHostResult(recorded, callId, result, decision)))
  {
  }

  lemma SubmitHostResultFollows(t: Turn, callId: string, result: TP.HostToolResult)
    requires ToolInv(t)
    ensures Follows(t, DoSubmitHostResult(t, callId, result))
  {
    var s := t.state;
    if callId !in s.hostResults && s.phase.AwaitingHostTools? && callId in s.pending {
      var request := s.pending[callId];
      var failure, decision := TP.FailureOf(request.name, result), PolicyDecision(s, request, result);
      var recorded := s.(policyHistory := s.policyHistory + [failure]);
      HostSubmissionStep(t, callId, result, recorded, failure, decision);
      WithHostResultFollows(t, callId, result, recorded, decision);
    }
  }

  lemma StepFollows(t: Turn, op: Op)
    requires ToolInv(t)
    ensures Follows(t, Step(t, op))
  {
    if IsPhaseChange(op) {
      PhaseOpsFollow(t, op);
    } else {
      match op
      case EnqueueOp(item, now) => EnqueueFollows(t, item, now);
      case EnqueueProviderOp(item, now) => EnqueueProviderFollows(t, item, now);
      case QueueRequestOp(request) => QueueRequestFollows(t, request);
      case DrainRequestsOp(maxRequests) => DrainRequestsFollows(t, maxRequests);
      case SubmitOutputOp(callId, output) => SubmitOutputFollows(t, callId, output);
      case SubmitHostResultOp(callId, result) => SubmitHostResultFollows(t, callId, result);
      case TakeOutputOp(callId) => TakeFollows(t, callId);
      case PollHostOutputOp(callId) => TakeFollows(t, callId);
      case FailOp(reason, now) => FailFollows(t, reason, now);
      case CancelOp(reason, now) => CancelFollows(t, reason, now);
      case DrainStreamOp(maxItems) => DrainFollows(t, maxItems);
    }
  }

  lemma {:induction false} RunFollows(t: Turn, ops: seq<Op>)
    requires Inv(t)
    ensures Follows(t, Run(t, ops))
  {
    if ops != [] {
      var t' := Run(t, ops[..|ops| - 1]);
      RunFollows(t, ops[..|ops| - 1]);
      ContinuationKeepsInv(t, ops[..|ops| - 1]);
      StepFollows(t', ops[|ops| - 1]);
      FollowsTransitive(t, t', Run(t, ops));
    }
  }

  // ---------- one step at a time ----------

  // What a single operation guarantees: everything that holds in runs, and nothing taken back.

  lemma StepAdvances(t: Turn, op: Op)
    requires Inv(t)
    ensures Inv(Step(t, op)) && Follows(t, Step(t, op))
  {
    StepKeepsInv(t, op);
    StepFollows(t, op);
  }

  // The three operations with the most to unfold, with the step itself out of sight.

  lemma DrainStreamAdvances(t: Turn, maxItems: nat)
    requires Inv(t)
    ensures Inv(DoDrainStream(t, maxItems)) && Follows(t, DoDrainStream(t, maxItems))
  {
    hide Inv, Follows, DoDrainStream;
    StepAdvances(t, DrainStreamOp(maxItems));
  }

  lemma SubmitOutputAdvances(t: Turn, callId: string, output: TP.ToolOutput)
    requires Inv(t)
    ensures Inv(DoSubmitOutput(t, callId, output)) && Follows(t, DoSubmitOutput(t, callId, output))
  {
    hide Inv, Follows, DoSubmitOutput;
    StepAdvances(t, SubmitOutputOp(callId, output));
  }

  lemma SubmitHostResultAdvances(t: Turn, callId: string, result: TP.HostToolResult)
    requires Inv(t)
    ensures Inv(DoSubmitHostResult(t, callId, result)) && Follows(t, DoSubmitHostResult(t, callId, result))
  {
    hide Inv, Follows, DoSubmitHostResult;
    StepAdvances(t, SubmitHostResultOp(callId, result));
  }

  // ---------- endings ----------

  /** Over every run, the turn awaits host tools exactly while requests are pending, and has
      terminal details exactly when it has ended. */
  lemma PhaseTellsTheTruth(wakeId: string, sessionId: string, limits: Limits, ops: seq<Op>)
    ensures
      var s := Run(NewTurn(wakeId, sessionId, limits), ops).state;
      && (s.phase.AwaitingHostTools? <==> s.pending != map[])
      && (s.terminal.Some? <==> s.phase.IsTerminal())
  {
    RunKeepsInv(wakeId, sessionId, limits, ops);
  }

  /** Over every run, a terminal item is the last item ever accepted, and it ended the turn. */
  lemma TerminalItemIsLast(wakeId: string, sessionId: string, limits: Limits, ops: seq<Op>, i: nat)
    requires
      var t := Run(NewTurn(wakeId, sessionId, limits), ops);
      i < |t.log.enqueued| && t.log.enqueued[i].IsTerminal()
    ensures
      var t := Run(NewTurn(wakeId, sessionId, limits), ops);
      i == |t.log.enqueued| - 1 && (t.state.phase.Completed? || t.state.phase.Failed?)
  {
    RunKeepsInv(wakeId, sessionId, limits, ops);
    var t := Run(NewTurn(wakeId, sessionId, limits), ops);
    assert Belongs(t.state, t.log.enqueued[i], i == |t.log.enqueued| - 1);
  }

  /** The first ending wins: whatever is called afterwards, the phase and its details stay, except
      that a turn waiting for an operator can be cancelled. */
  lemma FirstEndingWins(t: Turn, ops: seq<Op>)
    requires Inv(t) && t.state.phase.IsTerminal()
    ensures
      var s := Run(t, ops).state;
      || (s.phase == t.state.phase && s.terminal == t.state.terminal)
      || (t.state.phase.AttentionRequired? && s.phase.Cancelled?)
  {
    RunFollows(t, ops);
  }

  lemma DrainingNothing(s: State, maxItems: nat)
    requires s.queue == []
    ensures DrainStream(s, maxItems) == (s, Drain(s.wakeId, s.phase, [], 0, s.phase.IsTerminal()))
  {
  }

  lemma EndedAndEmptyStaysSo(t: Turn, ops: seq<Op>)
    requires Inv(t) && t.state.phase.IsTerminal() && t.state.queue == []
    ensures Run(t, ops).state.phase.IsTerminal() && Run(t, ops).state.queue == []
  {
    RunFollows(t, ops);
  }

  /** An ended turn whose queue is empty stays that way. */
  lemma FinishedStays(t: Turn, t': Turn)
    requires Follows(t, t') && t.state.phase.IsTerminal() && t.state.queue == []
    ensures t'.state.phase.IsTerminal() && t'.state.queue == []
  {
  }

  /** Once a drain has reported the end, every later drain is empty and reports the end again. */
  lemma TerminalDrainIsFinal(t: Turn, t': Turn, maxItems: nat, ops: seq<Op>, later: nat)
    requires Inv(t) && DrainStream(t.state, maxItems).1.terminal
    requires t' == Run(Step(t, DrainStreamOp(maxItems)), ops)
    ensures
      var drain := DrainStream(t'.state, later).1;
      drain.items == [] && drain.remaining == 0 && drain.terminal
  {
    StepKeepsInv(t, DrainStreamOp(maxItems));
    DrainReportsTheEnd(t, maxItems);
    EndedAndEmptyStaysSo(Step(t, DrainStreamOp(maxItems)), ops);
    DrainingNothing(t'.state, later);
  }

  lemma DrainReportsTheEnd(t: Turn, maxItems: nat)
    requires DrainStream(t.state, maxItems).1.terminal
    ensures var s := Step(t, DrainStreamOp(maxItems)).state;
            s.phase.IsTerminal() && s.queue == []
  {
  }

  // ---------- backpressure ----------

  lemma {:induction false} DrainStopsOnlyAtTheEnd(queue: Queue, n: nat)
    requires forall i :: 0 <= i < |queue| && queue[i].item.IsTerminal() ==> i == |queue| - 1
    ensures DrainCount(queue, n) == Min(n, |queue|)
  {
    if n > 0 && |queue| > 1 {
      DrainStopsOnlyAtTheEnd(queue[1..], n - 1);
    }
  }

  /** In every reachable state a drain takes as many items as asked for, if there are that many. */
  lemma DrainTakesAll(t: Turn, maxItems: nat)
    requires StreamInv(t)
    ensures DrainStream(t.state, maxItems).1.items == t.state.queue[..Min(Max(maxItems, 1), |t.state.queue|)]
    ensures DrainStream(t.state, maxItems).0.queue == t.state.queue[Min(Max(maxItems, 1), |t.state.queue|)..]
  {
    var queue, delivered := t.state.queue, t.log.drained + t.state.queue;
    forall i | 0 <= i < |queue| && queue[i].item.IsTerminal() ensures i == |queue| - 1 {
      assert delivered[|t.log.drained| + i] == queue[i];
    }
    DrainStopsOnlyAtTheEnd(queue, Max(maxItems, 1));
  }

  /** Backpressure changes nothing, on either path, and leaves the turn running. */
  lemma BackpressureIsHarmless(s: State, item: StreamItem, now: nat)
    requires Enqueue(s, item, now).1.Err? && Enqueue(s, item, now).1.error.BufferLimitExceeded?
    ensures s.phase.Running?
    ensures Enqueue(s, item, now).0 == s
    ensures EnqueueProvider(s, item, now) == Enqueue(s, item, now)
  {
  }

  /** An empty queue accepts any item of this turn, whatever its size. */
  lemma EmptyQueueAccepts(s: State, item: StreamItem, now: nat)
    requires s.phase.Running? && s.queue == [] && s.limits.maxStreamItems > 0 && s.nextSequence < U64_MAX
    requires item.wakeId == s.wakeId && item.sessionId == s.sessionId && item.DeltaBytes() <= USIZE_MAX
    ensures Enqueue(s, item, now) == (Push(s, item, now), Ok(s.nextSequence))
  {
  }

  /** After backpressure, one drain of the whole queue makes room for the very same item, however
      large it is, as long as sequence numbers remain. */
  lemma BackpressureIsRecoverable(t: Turn, item: StreamItem, now: nat, later: nat)
    requires Inv(t) && t.state.limits.Valid()
    requires Enqueue(t.state, item, now).1.Err? && Enqueue(t.state, item, now).1.error.BufferLimitExceeded?
    requires item.DeltaBytes() <= USIZE_MAX
    ensures
      var s := DrainStream(t.state, |t.state.queue|).0;
      Enqueue(s, item, later).1 ==
        if t.state.nextSequence < U64_MAX then Ok(t.state.nextSequence) else Err(SequenceExhausted)
  {
    BackpressureIsHarmless(t.state, item, now);
    DrainTakesAll(t, |t.state.queue|);
    var s := DrainStream(t.state, |t.state.queue|).0;
    assert s.queue == [];
    if t.state.nextSequence < U64_MAX {
      EmptyQueueAccepts(s, item, later);
    }
  }

  /** The number an accepted item gets back is the number of the entry at the end of the queue,
      which is where its contents now are. */
  lemma AcceptedItemIsAtTheEnd(s: State, item: StreamItem, now: nat)
    requires Enqueue(s, item, now).1.Ok?
    ensures
      var (s', result) := Enqueue(s, item, now);
      && s'.queue != [] && s'.queue[|s'.queue| - 1].sequence == result.value
      && exists before :: Expand(s'.queue[|s'.queue| - 1].item) == before + Expand(item)
  {
    var s' := Enqueue(s, item, now).0;
    if Mergeable(s.queue, item) {
      var last := s.queue[|s.queue| - 1].item;
      CoalescingKeepsMeaning(last, item);
      assert Expand(s'.queue[|s'.queue| - 1].item) == Expand(last) + Expand(item);
    } else {
      assert Expand(s'.queue[|s'.queue| - 1].item) == [] + Expand(item);
    }
  }

  // ---------- the tool protocol ----------

  lemma {:induction false} SubsequenceMember(a: seq<ToolRequest>, b: seq<ToolRequest>, x: ToolRequest)
    requires Subsequence(a, b) && x in a
    ensures x in b
  {
    if Subsequence(a, b[..|b| - 1]) {
      SubsequenceMember(a, b[..|b| - 1], x);
    } else if x != a[|a| - 1] {
      assert x in a[..|a| - 1];
      SubsequenceMember(a[..|a| - 1], b[..|b| - 1], x);
    }
  }

  lemma {:induction false} SubsequenceOfDistinct(a: seq<ToolRequest>, b: seq<ToolRequest>)
    requires Subsequence(a, b) && DistinctIds(b)
    ensures DistinctIds(a)
  {
    if a != [] {
      var m, n := |a| - 1, |b| - 1;
      if Subsequence(a, b[..n]) {
        SubsequenceOfDistinct(a, b[..n]);
      } else {
        SubsequenceOfDistinct(a[..m], b[..n]);
        forall i | 0 <= i < m ensures a[i].callId != a[m].callId {
          SubsequenceMember(a[..m], b[..n], a[..m][i]);
          var j :| 0 <= j < n && b[..n][j] == a[i];
          assert b[j].callId != b[n].callId;
        }
      }
    }
  }

  /** Over every run, requests are handed to the host in the order they were queued and at most
      once each, no call is both pending and answered, and a request passed over by a hand-out
      already had its answer. */
  lemma RequestsAreHandedOutOnce(wakeId: string, sessionId: string, limits: Limits, ops: seq<Op>)
    ensures
      var t := Run(NewTurn(wakeId, sessionId, limits), ops);
      && DistinctIds(t.log.requested) && DistinctIds(t.log.handedOut)
      && Subsequence(t.log.handedOut, t.log.requested)
      && t.state.pending.Keys !! t.state.accepted.Keys
      && (t.state.undelivered == [] && !t.log.discarded ==>
            Accounted(t.log.requested, t.log.handedOut, t.state.accepted.Keys))
  {
    hide Run, Subsequence;
    RunKeepsInv(wakeId, sessionId, limits, ops);
    var t := Run(NewTurn(wakeId, sessionId, limits), ops);
    var base := |t.log.requested| - |t.state.undelivered|;
    SubsequenceOfLonger(t.log.handedOut, t.log.requested[..base], t.log.requested[base..]);
    assert t.log.requested[..base] + t.log.requested[base..] == t.log.requested;
    SubsequenceOfDistinct(t.log.handedOut, t.log.requested);
    assert t.state.undelivered == [] ==> t.log.requested[..base] == t.log.requested;
  }

  /** Over every run, an accepted output is waiting or was taken exactly once, with the content
      that was accepted, unless a failure or cancellation discarded the waiting ones. */
  lemma OutputsAreTakenOnce(wakeId: string, sessionId: string, limits: Limits, ops: seq<Op>)
    ensures
      var t := Run(NewTurn(wakeId, sessionId, limits), ops);
      OutputInv(t.state.submitted, t.state.accepted, t.log.taken, t.log.discarded)
  {
    RunKeepsInv(wakeId, sessionId, limits, ops);
  }

  lemma TakenStaysTaken(t: Turn, i: nat, ops: seq<Op>)
    requires Inv(t) && i < |t.log.taken|
    ensures t.log.taken[i].0 !in Run(t, ops).state.submitted
  {
    ContinuationKeepsInv(t, ops);
    RunFollows(t, ops);
    assert Run(t, ops).log.taken[i].0 in TakenIds(Run(t, ops).log.taken);
  }

  lemma NothingToTake(s: State, callId: string)
    requires callId !in s.submitted
    ensures TakeOutput(s, callId) == (s, None) && PollHostOutput(s, callId) == (s, None)
  {
  }

  /** A taken output is never handed over again, by either way of taking it, whatever happens. */
  lemma TakenOutputNeverReturns(t: Turn, t': Turn, i: nat, ops: seq<Op>)
    requires Inv(t) && i < |t.log.taken| && t' == Run(t, ops)
    ensures TakeOutput(t'.state, t.log.taken[i].0).1 == None
    ensures PollHostOutput(t'.state, t.log.taken[i].0).1 == None
  {
    TakenStaysTaken(t, i, ops);
    NothingToTake(t'.state, t.log.taken[i].0);
  }

  /** Polling hands over a host result's output together with the disposition it came with. */
  lemma PolledDispositionIsTheHosts(t: Turn, callId: string)
    requires ToolInv(t) && PollHostOutput(t.state, callId).1.Some?
    ensures
      PollHostOutput(t.state, callId).1.value ==
        HostOutput(t.state.accepted[callId],
                   if callId in t.state.hostResults then t.state.hostResults[callId].turnDisposition else None)
  {
  }

  // ---------- host results ----------

  /** Submitting a host result never fails because of its size and never meets a missing decision;
      the only refusal after the policy has recorded it is for too many waiting outputs. */
  lemma HostSubmissionErrors(t: Turn, callId: string, result: TP.HostToolResult)
    requires ToolInv(t)
    ensures
      var (s', outcome) := SubmitHostResult(t.state, callId, result);
      && (outcome.Err? ==> !outcome.error.ToolOutputTooLarge? && !outcome.error.MissingDecision?)
      && (outcome.Err? && s' != t.state ==>
            outcome.error == BufferLimitExceeded(ToolResults, t.state.limits.maxToolResults))
      && (outcome.Ok? && callId !in t.state.hostResults ==> outcome.value.receipt.Accepted?)
  {
    var s := t.state;
    if callId !in s.hostResults && s.phase.AwaitingHostTools? && callId in s.pending {
      var request := s.pending[callId];
      var failure, decision := TP.FailureOf(request.name, result), PolicyDecision(s, request, result);
      HostSubmissionOutcome(s, callId, result, s.(policyHistory := s.policyHistory + [failure]), decision);
    }
  }

  /** The same, as a caller of a reachable turn sees it. */
  lemma HostSubmissionIsOrderly(t: Turn, callId: string, result: TP.HostToolResult)
    requires Inv(t)
    ensures
      var outcome := SubmitHostResult(t.state, callId, result).1;
      outcome.Err? ==> !outcome.error.ToolOutputTooLarge? && !outcome.error.MissingDecision?
  {
    HostSubmissionErrors(t, callId, result);
  }

  /** An accepted result and the decision returned for it are kept. */
  lemma AcceptedResultIsStored(t: Turn, callId: string, result: TP.HostToolResult, decision: TP.PolicyDecision)
    requires ToolInv(t)
    requires SubmitHostResult(t.state, callId, result).1.Ok?
    requires decision == SubmitHostResult(t.state, callId, result).1.value.decision
    ensures
      var s := DoSubmitHostResult(t, callId, result).state;
      && callId in s.hostResults && s.hostResults[callId] == result
      && callId in s.decisions && s.decisions[callId] == decision
  {
    hide SubmitOutput, PolicyDecision;
    var s := t.state;
    if callId in s.hostResults {
      assert DoSubmitHostResult(t, callId, result).state == s;
    }
  }

  lemma StoredResultAnswers(s: State, callId: string, other: TP.HostToolResult)
    requires callId in s.hostResults && callId in s.decisions
    ensures SubmitHostResult(s, callId, other) ==
      (s, if other == s.hostResults[callId] then Ok(HostSubmission(Duplicate, s.decisions[callId]))
          else Err(ConflictingToolResult(callId)))
  {
  }

  lemma StoredResultStays(t: Turn, callId: string, ops: seq<Op>)
    requires Inv(t) && callId in t.state.hostResults && callId in t.state.decisions
    ensures
      var s := Run(t, ops).state;
      && callId in s.hostResults && s.hostResults[callId] == t.state.hostResults[callId]
      && callId in s.decisions && s.decisions[callId] == t.state.decisions[callId]
  {
    RunFollows(t, ops);
  }

  /** Submitting an accepted result again changes nothing and returns the same decision, at any
      later point of any run, even after the turn has ended; a different result is a conflict. */
  lemma ResubmissionIsDuplicate(t: Turn, t': Turn, callId: string, ops: seq<Op>, other: TP.HostToolResult)
    requires Inv(t) && callId in t.state.hostResults && t' == Run(t, ops)
    ensures SubmitHostResult(t'.state, callId, other) ==
      (t'.state, if other == t.state.hostResults[callId] then Ok(HostSubmission(Duplicate, t.state.decisions[callId]))
                 else Err(ConflictingToolResult(callId)))
  {
    StoredResultStays(t, callId, ops);
    StoredResultAnswers(t'.state, callId, other);
  }

  /** Over every run, recorded failures are at least the accepted failing results, and exceed them
      by exactly the failing submissions that were refused for lack of room. */
  lemma FailuresAreAccounted(wakeId: string, sessionId: string, limits: Limits, ops: seq<Op>)
    ensures
      var t := Run(NewTurn(wakeId, sessionId, limits), ops);
      |TP.Failures(t.state.policyHistory)| == |FailingIds(t.state.hostResults)| + t.log.refusedFailures
  {
    RunKeepsInv(wakeId, sessionId, limits, ops);
  }
}
