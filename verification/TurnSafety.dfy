/** What every run of a buffered brain turn keeps, whatever operations are called in whatever
    order and with whatever arguments. */
module TurnSafety {
  import opened Wrappers
  import opened Text
  import opened TurnStream
  import opened TurnModel
  import TP = ToolPolicy

  // ---------- the stream ----------

  ghost predicate Numbered(entries: Queue) {
    forall i :: 0 <= i < |entries| ==> entries[i].sequence == i + 1
  }

  /** An item of this turn; a terminal one only in last place and only in a turn that it ended. */
  ghost predicate Belongs(s: State, item: StreamItem, isLast: bool) {
    && item.wakeId == s.wakeId && item.sessionId == s.sessionId
    && (item.IsTerminal() ==> isLast && (s.phase.Completed? || s.phase.Failed?))
  }

  ghost predicate AllBelong(s: State, items: seq<StreamItem>) {
    forall i :: 0 <= i < |items| ==> Belongs(s, items[i], i == |items| - 1)
  }

  ghost predicate EntriesBelong(s: State, entries: Queue) {
    forall i :: 0 <= i < |entries| ==> Belongs(s, entries[i].item, i == |entries| - 1)
  }

  /** No two neighbours in the queue are both text, or both reasoning of one format. */
  ghost predicate FullyCoalesced(queue: Queue) {
    forall i, j :: 0 <= i < |queue| - 1 && j == i + 1 ==> !SameKind(queue[i].item, queue[j].item)
  }

  ghost predicate OneOversizedDelta(queue: Queue) {
    && queue != [] && queue[0].item.IsDelta()
    && queue[0].item.DeltaBytes() == QueuedDeltaBytes(queue)
    && forall i :: 1 <= i < |queue| ==> !queue[i].item.IsDelta()
  }

  /** The byte limit is exceeded only by one oversized delta at the head with no other delta
      behind it, and the item limit by at most one terminal item at the end. */
  ghost predicate WithinLimits(queue: Queue, limits: Limits) {
    && QueuedDeltaBytes(queue) <= USIZE_MAX
    && (QueuedDeltaBytes(queue) > limits.maxStreamDeltaBytes ==> OneOversizedDelta(queue))
    && |queue| <= limits.maxStreamItems + 1
    && (|queue| == limits.maxStreamItems + 1 ==> queue[|queue| - 1].item.IsTerminal())
  }

  /** The delivered entries are the accepted stream, numbered from 1 without gap. */
  ghost predicate Faithful(s: State, delivered: Queue, enqueued: seq<StreamItem>) {
    && Meaning(delivered) == ExpandAll(enqueued)
    && Numbered(delivered) && s.nextSequence == |delivered| + 1 <= U64_MAX
    && |delivered| <= |enqueued|
    && EntriesBelong(s, delivered) && AllBelong(s, enqueued)
  }

  /** Everything drained followed by everything queued is the accepted stream. */
  ghost predicate StreamInv(t: Turn) {
    && Faithful(t.state, t.log.drained + t.state.queue, t.log.enqueued)
    && FullyCoalesced(t.state.queue)
    && WithinLimits(t.state.queue, t.state.limits)
  }

  /** Nothing but the stream operations touches the stream, and no terminal stream item allows a
      later change of phase. */
  ghost predicate SameStream(t: Turn, t': Turn) {
    && t.state.queue == t'.state.queue && t.state.nextSequence == t'.state.nextSequence
    && t.state.limits == t'.state.limits
    && t.state.wakeId == t'.state.wakeId && t.state.sessionId == t'.state.sessionId
    && t.log.enqueued == t'.log.enqueued && t.log.drained == t'.log.drained
    && (t.state.phase.Completed? || t.state.phase.Failed? ==> t.state.phase == t'.state.phase)
  }

  lemma SameStreamKeepsInv(t: Turn, t': Turn)
    requires StreamInv(t) && SameStream(t, t')
    ensures StreamInv(t')
  {
  }

  lemma MergeKeepsMeaning(before: Queue, last: SequencedItem, item: StreamItem, merged: StreamItem,
                          stream: seq<StreamItem>)
    requires Coalesced(last.item, item) == Some(merged)
    requires Meaning(before + [last]) == ExpandAll(stream)
    ensures Meaning(before + [last.(item := merged)]) == ExpandAll(stream + [item])
  {
    CoalescingKeepsMeaning(last.item, item);
    MeaningOfGrownLast(before, last, last.(item := merged), Expand(item));
    ExpandAllAppend(stream, item);
  }

  lemma MergeKeepsCoalesced(before: Queue, last: SequencedItem, item: StreamItem, grown: SequencedItem)
    requires Coalesced(last.item, item) == Some(grown.item)
    requires FullyCoalesced(before + [last])
    ensures FullyCoalesced(before + [grown])
  {
    if before != [] {
      var n := |before| - 1;
      var previous := before[n].item;
      assert (before + [last])[n].item == previous && (before + [last])[n + 1] == last;
      MergingKeepsKind(last.item, item, previous);
    }
    forall i, j | 0 <= i < |before| && j == i + 1
      ensures Coalesced((before + [grown])[i].item, (before + [grown])[j].item).None?
    {
      assert Coalesced((before + [last])[i].item, (before + [last])[j].item).None?;
    }
  }

  lemma MergeKeepsLimits(before: Queue, last: SequencedItem, item: StreamItem, grown: SequencedItem, limits: Limits)
    requires Coalesced(last.item, item) == Some(grown.item)
    requires WithinLimits(before + [last], limits)
    requires QueuedDeltaBytes(before + [last]) + item.DeltaBytes() <= Min(USIZE_MAX, limits.maxStreamDeltaBytes)
    ensures WithinLimits(before + [grown], limits)
  {
    CoalescingKeepsMeaning(last.item, item);
    QueuedBytesAppend(before, last);
    QueuedBytesAppend(before, grown);
    assert (before + [last])[|before|] == last;
  }

  lemma MergeStaysFaithful(s: State, before: Queue, last: SequencedItem, grown: SequencedItem,
                           enqueued: seq<StreamItem>, item: StreamItem)
    requires Faithful(s, before + [last], enqueued) && s.phase.Running? && Belongs(s, item, false)
    requires Coalesced(last.item, item) == Some(grown.item) && grown.sequence == last.sequence
    ensures Faithful(s, before + [grown], enqueued + [item])
  {
    CoalescingKeepsMeaning(last.item, item);
    MergeKeepsMeaning(before, last, item, grown.item, enqueued);
    assert (before + [last])[|before|] == last;
    assert forall i :: 0 <= i < |before| ==> (before + [last])[i] == before[i];
  }

  lemma MergeKeepsStream(t: Turn, item: StreamItem, before: Queue, last: SequencedItem, grown: SequencedItem)
    requires StreamInv(t) && t.state.phase.Running? && Belongs(t.state, item, false)
    requires t.state.queue == before + [last]
    requires Coalesced(last.item, item) == Some(grown.item) && grown.sequence == last.sequence
    requires QueuedDeltaBytes(t.state.queue) + item.DeltaBytes() <= Min(USIZE_MAX, t.state.limits.maxStreamDeltaBytes)
    ensures StreamInv(Turn(t.state.(queue := before + [grown]), t.log.(enqueued := t.log.enqueued + [item])))
  {
    MergeKeepsCoalesced(before, last, item, grown);
    MergeKeepsLimits(before, last, item, grown, t.state.limits);
    ConcatAssoc(t.log.drained, before, [last]);
    ConcatAssoc(t.log.drained, before, [grown]);
    MergeStaysFaithful(t.state, t.log.drained + before, last, grown, t.log.enqueued, item);
    FaithfulIgnoresQueue(t.state, t.state.(queue := before + [grown]),
                         t.log.drained + before + [grown], t.log.enqueued + [item]);
  }

  lemma FaithfulIgnoresQueue(s: State, s': State, delivered: Queue, enqueued: seq<StreamItem>)
    requires Faithful(s, delivered, enqueued) && s' == s.(queue := s'.queue)
    ensures Faithful(s', delivered, enqueued)
  {
  }

  lemma PushKeepsQueue(queue: Queue, entry: SequencedItem, limits: Limits)
    requires FullyCoalesced(queue) && WithinLimits(queue, limits) && !Mergeable(queue, entry.item)
    requires QueuedDeltaBytes(queue) + entry.item.DeltaBytes() <= USIZE_MAX
    requires entry.item.IsDelta() && queue != [] ==>
               QueuedDeltaBytes(queue) + entry.item.DeltaBytes() <= limits.maxStreamDeltaBytes
    requires queue != [] ==> !queue[|queue| - 1].item.IsTerminal()
    requires |queue| < limits.maxStreamItems || entry.item.IsTerminal()
    ensures FullyCoalesced(queue + [entry]) && WithinLimits(queue + [entry], limits)
  {
    QueuedBytesAppend(queue, entry);
  }

  lemma BelongingAppends(s: State, s': State, entries: Queue, enqueued: seq<StreamItem>, entry: SequencedItem)
    requires s.phase.Running? && EntriesBelong(s, entries) && AllBelong(s, enqueued)
    requires s'.wakeId == s.wakeId && s'.sessionId == s.sessionId
    requires Belongs(s', entry.item, true)
    ensures EntriesBelong(s', entries + [entry]) && AllBelong(s', enqueued + [entry.item])
  {
    forall i | 0 <= i < |entries| ensures Belongs(s', entries[i].item, false) {
      assert Belongs(s, entries[i].item, i == |entries| - 1);
    }
    forall i | 0 <= i < |enqueued| ensures Belongs(s', enqueued[i], false) {
      assert Belongs(s, enqueued[i], i == |enqueued| - 1);
    }
  }

  lemma PushStaysFaithful(s: State, s': State, delivered: Queue, enqueued: seq<StreamItem>, item: StreamItem)
    requires Faithful(s, delivered, enqueued) && s.phase.Running? && s.nextSequence < U64_MAX
    requires s'.wakeId == s.wakeId && s'.sessionId == s.sessionId && s'.nextSequence == s.nextSequence + 1
    requires Belongs(s', item, true)
    ensures Faithful(s', delivered + [SequencedItem(s.nextSequence, item)], enqueued + [item])
  {
    MeaningAppend(delivered, SequencedItem(s.nextSequence, item));
    ExpandAllAppend(enqueued, item);
    BelongingAppends(s, s', delivered, enqueued, SequencedItem(s.nextSequence, item));
  }

  lemma LastIsNotTerminal(s: State, delivered: Queue, drained: Queue)
    requires EntriesBelong(s, delivered) && s.phase.Running? && delivered == drained + s.queue && s.queue != []
    ensures !s.queue[|s.queue| - 1].item.IsTerminal()
  {
    assert Belongs(s, delivered[|delivered| - 1].item, true);
  }

  lemma PushedQueue(s: State, item: StreamItem)
    requires FullyCoalesced(s.queue) && WithinLimits(s.queue, s.limits)
    requires s.queue != [] ==> !s.queue[|s.queue| - 1].item.IsTerminal()
    requires !DeltaMustWait(s, item) && !Mergeable(s.queue, item)
    requires |s.queue| < s.limits.maxStreamItems || item.IsTerminal()
    ensures var queue := s.queue + [SequencedItem(s.nextSequence, item)];
            FullyCoalesced(queue) && WithinLimits(queue, s.limits)
  {
    PushKeepsQueue(s.queue, SequencedItem(s.nextSequence, item), s.limits);
  }

  lemma PushedState(s: State, item: StreamItem, now: nat)
    requires item.wakeId == s.wakeId && item.sessionId == s.sessionId
    ensures var s' := Push(s, item, now);
            && s'.queue == s.queue + [SequencedItem(s.nextSequence, item)] && s'.limits == s.limits
            && s'.wakeId == s.wakeId && s'.sessionId == s.sessionId && s'.nextSequence == s.nextSequence + 1
            && Belongs(s', item, true)
  {
  }

  lemma PushKeepsStream(t: Turn, t': Turn, item: StreamItem, now: nat)
    requires StreamInv(t) && t.state.phase.Running? && t.state.nextSequence < U64_MAX
    requires item.wakeId == t.state.wakeId && item.sessionId == t.state.sessionId
    requires !DeltaMustWait(t.state, item) && !Mergeable(t.state.queue, item)
    requires |t.state.queue| < t.state.limits.maxStreamItems || item.IsTerminal()
    requires t' == Turn(Push(t.state, item, now), t.log.(enqueued := t.log.enqueued + [item]))
    ensures StreamInv(t')
  {
    var s := t.state;
    var delivered := t.log.drained + s.queue;
    if s.queue != [] {
      LastIsNotTerminal(s, delivered, t.log.drained);
    }
    PushedQueue(s, item);
    PushedState(s, item, now);
    ConcatAssoc(t.log.drained, s.queue, [SequencedItem(s.nextSequence, item)]);
    PushStaysFaithful(s, t'.state, delivered, t.log.enqueued, item);
  }

  /** An accepted item belongs to the running turn and does not have to wait; it is merged into the
      last entry if it can be, and pushed if there is room otherwise. */
  lemma AcceptedItem(s: State, item: StreamItem, now: nat)
    requires Enqueue(s, item, now).1.Ok?
    ensures s.phase.Running? && item.wakeId == s.wakeId && item.sessionId == s.sessionId && !DeltaMustWait(s, item)
    ensures !Mergeable(s.queue, item) ==>
      && Enqueue(s, item, now).0 == Push(s, item, now) && s.nextSequence < U64_MAX
      && (|s.queue| < s.limits.maxStreamItems || item.IsTerminal())
  {
  }

  lemma MergedItem(t: Turn, item: StreamItem, now: nat, before: Queue, last: SequencedItem)
    requires Enqueue(t.state, item, now).1.Ok? && t.state.queue == before + [last] && Coalesced(last.item, item).Some?
    ensures DoEnqueue(t, item, now) ==
            Turn(t.state.(queue := before + [last.(item := Coalesced(last.item, item).value)]),
                 t.log.(enqueued := t.log.enqueued + [item]))
  {
    assert t.state.queue[|t.state.queue| - 1] == last && t.state.queue[..|t.state.queue| - 1] == before;
  }

  lemma MergingKeepsStream(t: Turn, item: StreamItem, now: nat, before: Queue, last: SequencedItem)
    requires StreamInv(t) && Enqueue(t.state, item, now).1.Ok?
    requires t.state.queue == before + [last] && Coalesced(last.item, item).Some?
    ensures StreamInv(DoEnqueue(t, item, now))
  {
    AcceptedItem(t.state, item, now);
    MergedItem(t, item, now, before, last);
    CoalescingKeepsMeaning(last.item, item);
    MergeKeepsStream(t, item, before, last, last.(item := Coalesced(last.item, item).value));
  }

  lemma EnqueueKeepsStream(t: Turn, item: StreamItem, now: nat)
    requires StreamInv(t)
    ensures StreamInv(DoEnqueue(t, item, now))
  {
    var queue := t.state.queue;
    if Enqueue(t.state, item, now).1.Ok? {
      if Mergeable(queue, item) {
        var n := |queue| - 1;
        assert queue == queue[..n] + [queue[n]];
        MergingKeepsStream(t, item, now, queue[..n], queue[n]);
      } else {
        AcceptedItem(t.state, item, now);
        PushKeepsStream(t, DoEnqueue(t, item, now), item, now);
      }
    }
  }

  lemma ProviderPathSplits(t: Turn, item: StreamItem, now: nat)
    ensures SameStream(DoEnqueue(t, item, now), DoEnqueueProvider(t, item, now))
  {
  }

  lemma SuffixKeepsQueue(queue: Queue, n: nat, limits: Limits)
    requires n <= |queue| && FullyCoalesced(queue) && WithinLimits(queue, limits)
    ensures FullyCoalesced(queue[n..]) && WithinLimits(queue[n..], limits)
  {
    assert queue == queue[..n] + queue[n..];
    QueuedBytesConcat(queue[..n], queue[n..]);
    if n > 0 && OneOversizedDelta(queue) {
      QueuedBytesPop(queue[..n]);
    }
  }

  lemma DrainKeepsStream(t: Turn, maxItems: nat)
    requires StreamInv(t)
    ensures StreamInv(DoDrainStream(t, maxItems))
  {
    var n := DrainCount(t.state.queue, Max(maxItems, 1));
    var taken, rest := t.state.queue[..n], t.state.queue[n..];
    SuffixKeepsQueue(t.state.queue, n, t.state.limits);
    ConcatAssoc(t.log.drained, taken, rest);
    assert t.state.queue == taken + rest;
    FaithfulIgnoresQueue(t.state, t.state.(queue := rest), t.log.drained + t.state.queue, t.log.enqueued);
  }

  lemma ToolOpsKeepStream(t: Turn, op: Op)
    requires op.QueueRequestOp? || op.DrainRequestsOp? || op.SubmitOutputOp? || op.TakeOutputOp? || op.PollHostOutputOp?
    ensures SameStream(t, Step(t, op))
  {
  }

  lemma DecidedSubmissionKeepsStream(s: State, callId: string, result: TP.HostToolResult, decision: TP.PolicyDecision)
    ensures
      var s' := SubmitDecided(s, callId, result, decision).0;
      && (s'.queue, s'.nextSequence, s'.limits) == (s.queue, s.nextSequence, s.limits)
      && (s'.wakeId, s'.sessionId) == (s.wakeId, s.sessionId)
      && (s.phase.IsTerminal() ==> s'.phase == s.phase)
  {
  }

  lemma HostSubmissionKeepsStream(t: Turn, callId: string, result: TP.HostToolResult)
    ensures SameStream(t, DoSubmitHostResult(t, callId, result))
  {
    var s := t.state;
    if callId !in s.hostResults && s.phase.AwaitingHostTools? && callId in s.pending {
      var recorded := s.(policyHistory := s.policyHistory + [TP.FailureOf(s.pending[callId].name, result)]);
      DecidedSubmissionKeepsStream(recorded, callId, result, PolicyDecision(s, s.pending[callId], result));
    }
  }

  lemma PhaseOpsKeepStream(t: Turn, op: Op)
    requires op.StartOp? || op.SetProviderStateOp? || op.YieldOp? || op.RequireAttentionOp?
    ensures SameStream(t, Step(t, op))
  {
  }

  lemma EndingOpsKeepStream(t: Turn, op: Op)
    requires op.FailOp? || op.CancelOp?
    ensures SameStream(t, Step(t, op))
  {
  }

  lemma StepKeepsStream(t: Turn, op: Op)
    requires StreamInv(t)
    ensures StreamInv(Step(t, op))
  {
    match op
    case EnqueueOp(item, now) => EnqueueKeepsStream(t, item, now);
    case EnqueueProviderOp(item, now) =>
      EnqueueKeepsStream(t, item, now);
      ProviderPathSplits(t, item, now);
      SameStreamKeepsInv(DoEnqueue(t, item, now), DoEnqueueProvider(t, item, now));
    case DrainStreamOp(maxItems) => DrainKeepsStream(t, maxItems);
    case SubmitHostResultOp(callId, result) =>
      HostSubmissionKeepsStream(t, callId, result);
      SameStreamKeepsInv(t, Step(t, op));
    case QueueRequestOp(_) => ToolOpsKeepStream(t, op); SameStreamKeepsInv(t, Step(t, op));
    case DrainRequestsOp(_) => ToolOpsKeepStream(t, op); SameStreamKeepsInv(t, Step(t, op));
    case SubmitOutputOp(_, _) => ToolOpsKeepStream(t, op); SameStreamKeepsInv(t, Step(t, op));
    case TakeOutputOp(_) => ToolOpsKeepStream(t, op); SameStreamKeepsInv(t, Step(t, op));
    case PollHostOutputOp(_) => ToolOpsKeepStream(t, op); SameStreamKeepsInv(t, Step(t, op));
    case FailOp(_, _) => EndingOpsKeepStream(t, op); SameStreamKeepsInv(t, Step(t, op));
    case CancelOp(_, _) => EndingOpsKeepStream(t, op); SameStreamKeepsInv(t, Step(t, op));
    case _ => PhaseOpsKeepStream(t, op); SameStreamKeepsInv(t, Step(t, op));
  }
}
