/** What each transaction on the ledger does in a world a run has reached, and exactly when. */
module LedgerOutcomes {
  import opened Wrappers
  import opened Text
  import opened OperationIds
  import opened OperationLedger
  import opened LedgerSafety
  import opened LedgerRuns
  import opened LedgerHandOver
  import opened LedgerReplay

  /** Nothing has happened to the turn since the wake claimed it. */
  predicate Untouched(w: World, k: string)
    requires k in w.wakes
  {
    w.turn.revision == w.wakes[k].revision
  }

  /** In a world a run has reached, that is all the fence asks for. */
  lemma FenceIsTheRevision(w: World, k: string, epoch: Epoch)
    requires Inv(w) && k in w.wakes
    ensures FenceHolds(w.turn, w.wakes[k], epoch) <==> Untouched(w, k) && epoch == w.wakes[k].epoch
  {
    assert ClaimOk(w.turn, w.wakes[k]);
  }

  // The turn

  /** A turn is claimed exactly when it is admitted, runnable or yielded and the wake is new.  The claim is
      the next generation, the turn is running at a new revision, and the wake starts at slot zero. */
  lemma ClaimSucceedsIff(w: World, k: string, service: string)
    requires Inv(w)
    ensures var next := Claim(w, k, service);
            && (next != w <==> k !in w.wakes && w.turn.phase in {Admitted, Runnable, Yielded})
            && (next != w ==>
                  && next == w.(turn := next.turn, wakes := next.wakes)
                  && next.turn.phase == Running && next.turn.claimGeneration == w.turn.claimGeneration + 1
                  && next.turn.continuation == w.turn.continuation
                  && next.turn.cancellationGeneration == w.turn.cancellationGeneration
                  && next.wakes.Keys == w.wakes.Keys + {k} && (forall l <- w.wakes :: next.wakes[l] == w.wakes[l])
                  && Untouched(next, k) && next.turn.epoch == Some(next.wakes[k].epoch)
                  && AtSlot(next, k, w.turn.continuation, 0))
  {
    ClaimIsNotAReplay(w, service);
  }

  /** The turn a settlement leads to. */
  ghost predicate SettledAs(turn: Turn, turn': Turn, settlement: Settlement) {
    && turn'.revision == turn.revision + 1 && turn'.epoch == None
    && turn'.claimGeneration == turn.claimGeneration && turn'.cancellationGeneration == turn.cancellationGeneration
    && (settlement.Yield? ==> turn'.phase == Yielded)
    && (settlement.Attend? ==> turn'.phase == AttentionRequired && turn'.attention == Some(settlement.attention))
    && (!settlement.Attend? ==> turn'.attention == turn.attention)
    && (settlement.Finish? ==> turn'.phase == (if settlement.failed then Failed else Completed))
    && turn'.continuation == (if settlement.Finish? then turn.continuation else settlement.continuation)
  }

  /** A settlement counts exactly when nothing has happened to the turn since the claim and its
      continuation, if it has one, is new; the wake is then gone.  After a cancellation only the wake
      goes. */
  lemma SettlementCountsIff(w: World, k: string, settlement: Settlement)
    requires Inv(w) && k in w.wakes
    ensures var next := Settle(w, k, settlement);
            var isNew := settlement.Finish? || settlement.continuation !in w.checkpoints;
            && (next.turn != w.turn <==> Untouched(w, k) && isNew)
            && (next.turn != w.turn ==>
                  && SettledAs(w.turn, next.turn, settlement)
                  && next.checkpoints ==
                     w.checkpoints + (if settlement.Finish? then {} else {settlement.continuation}))
            && next.wakes == (if next.turn != w.turn || w.turn.phase == Cancelled then w.wakes - {k} else w.wakes)
            && next == w.(turn := next.turn, checkpoints := next.checkpoints, wakes := next.wakes)
  {
    FenceIsTheRevision(w, k, w.wakes[k].epoch);
    assert ClaimOk(w.turn, w.wakes[k]);
  }

  /** A cancellation ends exactly the turns that have not ended; no claim survives it. */
  lemma CancellationEndsTheTurn(w: World)
    requires Inv(w)
    ensures var next := Cancel(w);
            && (next.turn != w.turn <==> w.turn.phase !in {Completed, Cancelled, Failed})
            && (next.turn != w.turn ==>
                  && next.turn.phase == Cancelled && next.turn.attention == None && next.turn.epoch == None
                  && next.turn.cancellationGeneration == w.turn.cancellationGeneration + 1
                  && next.turn.continuation == w.turn.continuation
                  && next.turn.claimGeneration == w.turn.claimGeneration
                  && forall k <- next.wakes :: !Untouched(next, k))
            && next == w.(turn := next.turn)
  {
    forall k <- w.wakes ensures w.wakes[k].revision <= w.turn.revision {
      assert ClaimOk(w.turn, w.wakes[k]);
    }
  }

  /** At a restart a turn between epochs becomes runnable, a running one too unless a call was open, and
      otherwise waits for an operator, who may decide the call only if it was the only one. */
  lemma RestartOutcome(w: World)
    ensures var next := Hydrate(w);
            var open := OpsIn(w.ops, Leased);
            && (w.turn.phase in {Admitted, Yielded} ==> next.turn.phase == Runnable && next.ops == w.ops)
            && (w.turn.phase in {Runnable, AttentionRequired, Completed, Cancelled, Failed} ==> next == w)
            && (w.turn.phase == CancelRequested ==>
                  next.turn.phase == Cancelled && next.ops == w.ops
                  && next.turn.cancellationGeneration == w.turn.cancellationGeneration + 1)
            && (w.turn.phase == Running && open == {} ==> next.turn.phase == Runnable && next.ops == w.ops)
            && (w.turn.phase == Running && open != {} ==>
                  && next.turn.phase == AttentionRequired && next.turn.attention.Some?
                  && !next.turn.attention.value.retryAllowed
                  && (next.turn.attention.value.confirmAllowed <==> |open| == 1)
                  && (next.turn.attention.value.toolOutcomeUnknown <==> |open| == 1))
            && (next != w ==> next.turn.epoch == None && next.turn.revision == w.turn.revision + 1)
            && next.turn.continuation == w.turn.continuation && next.turn.claimGeneration == w.turn.claimGeneration
            && next == w.(turn := next.turn, ops := next.ops)
  {
  }

  /** What a resolution makes of the one call whose outcome is unknown. */
  ghost predicate DecidedAs(o: Operation, o': Operation, id: string, resolution: Resolution) {
    && o' == o.(phase := o'.phase, payload := o'.payload, revision := o.revision + 1)
    && (resolution == ConfirmCompleted ==>
          o'.phase == Done && o'.payload == Some(Payload(None, None, ConfirmedByOperator(id))))
    && (resolution == ConfirmNotCompleted ==> o'.phase == Superseded && o'.payload == None)
  }

  predicate MayConfirm(turn: Turn) {
    turn.attention.Some? && turn.attention.value.toolOutcomeUnknown && turn.attention.value.confirmAllowed
  }

  /** An operator's answer counts exactly when the turn waits for it, the attention allows it and, for a
      decision about a call, exactly one outcome is unknown.  The turn is then runnable again. */
  lemma ResolutionCountsIff(w: World, resolution: Resolution)
    ensures var next := Resolve(w, resolution);
            var unknown := OpsIn(w.ops, OutcomeUnknown);
            && (next != w <==>
                  && w.turn.phase == AttentionRequired
                  && (if resolution == Retry then w.turn.attention.Some? && w.turn.attention.value.retryAllowed
                      else MayConfirm(w.turn) && |unknown| == 1))
            && (next != w ==>
                  && next.turn == w.turn.(phase := Runnable, attention := None, revision := w.turn.revision + 1)
                  && (resolution == Retry ==> next.ops == w.ops)
                  && (resolution != Retry ==>
                        exists id :: unknown == {id} && id in next.ops && next.ops == w.ops[id := next.ops[id]]
                                     && DecidedAs(w.ops[id], next.ops[id], id, resolution)))
            && next == w.(turn := next.turn, ops := next.ops)
  {
    var next, unknown := Resolve(w, resolution), OpsIn(w.ops, OutcomeUnknown);
    if next != w && resolution != Retry {
      var id :| id in unknown && next.ops == w.ops[id := ResolvedOperation(w.ops[id], id, resolution)];
      OnlyElement(unknown, id);
      assert DecidedAs(w.ops[id], next.ops[id], id, resolution);
    }
  }

  lemma OnlyElement<T>(s: set<T>, x: T)
    requires |s| == 1 && x in s
    ensures s == {x}
  {
    assert |s - {x}| == 0;
  }

  // Requests

  /** The attempt of a slot that was not given up decides about the next request for it. */
  lemma StandingAttemptDecides(w: World, c: string, slot: nat, a: nat, id: string, fingerprint: string)
    requires Inv(w) && a <= U64_MAX && id == IdOf(w.turnId, Name(c, slot, a))
    requires id in w.ops && w.ops[id].phase != Superseded
    ensures var plan := PlanFor(w.ops, SlotId(w.turnId, c, slot), fingerprint);
            && (plan == Diverged <==> w.ops[id].fingerprint != fingerprint)
            && (w.ops[id].fingerprint == fingerprint ==>
                  match w.ops[id].phase
                  case Done => w.ops[id].payload.Some? && plan == Replay(id, w.ops[id].payload.value)
                  case DoneAfterCancel => plan == NothingToDo
                  case _ => plan == NotReplayable)
  {
    LatestIsTheStandingAttempt(w, c, slot, a);
    assert RecordOk(w.ops[id]);
  }

  /** When every attempt of a slot was given up, the next one has the first number not yet used, as long
      as there is one. */
  lemma NextAttemptIsTheFirstUnused(w: World, c: string, slot: nat, fingerprint: string, n: nat)
    requires Inv(w) && PlanFor(w.ops, SlotId(w.turnId, c, slot), fingerprint) == Lease(n)
    ensures n <= U64_MAX
    ensures n > 0 ==> IdOf(w.turnId, Name(c, slot, n - 1)) in w.ops
    ensures n < U64_MAX ==> IdOf(w.turnId, Name(c, slot, n)) !in w.ops
  {
    hide IdOf, SlotId, AttemptsIn, FollowsGivenUp, WakesInv, ClaimsInv, GrantsInv;
    var latest := Latest(w.ops, SlotId(w.turnId, c, slot));
    if n <= U64_MAX && IdOf(w.turnId, Name(c, slot, n)) in w.ops {
      LatestCovers(w.turnId, w.ops, w.names, c, slot, n);
    }
    if latest.Some? {
      LatestIsTheLatest(w.turnId, w.ops, w.names, c, slot);
      var top := latest.value.0;
      if top == U64_MAX {
        SlotIsAChain(w, c, slot, U64_MAX - 1, U64_MAX);
      }
    }
  }

  /** Before its slot's next request, an operator may decide about a call whose outcome is unknown: confirmed
      as completed, it is replayed with the operator's word as its result; confirmed as not completed, it is
      given up and the next attempt leased. */
  lemma OperatorDecides(w: World, c: string, slot: nat, a: nat, id: string)
    requires Inv(w) && a < U64_MAX && id == IdOf(w.turnId, Name(c, slot, a))
    requires w.turn.phase == AttentionRequired && MayConfirm(w.turn) && OpsIn(w.ops, OutcomeUnknown) == {id}
    ensures var next := Resolve(w, ConfirmCompleted);
            && next.turn.phase == Runnable
            && PlanFor(next.ops, SlotId(w.turnId, c, slot), w.ops[id].fingerprint) ==
               Replay(id, Payload(None, None, ConfirmedByOperator(id)))
    ensures var next := Resolve(w, ConfirmNotCompleted);
            && next.turn.phase == Runnable
            && PlanFor(next.ops, SlotId(w.turnId, c, slot), w.ops[id].fingerprint) == Lease(a + 1)
  {
    assert id in OpsIn(w.ops, OutcomeUnknown);
    ConfirmedIsReplayed(w, c, slot, a, id);
    DeniedIsRetried(w, c, slot, a, id);
  }

  lemma Decided(w: World, resolution: Resolution, id: string)
    requires resolution != Retry
    requires w.turn.phase == AttentionRequired && MayConfirm(w.turn) && OpsIn(w.ops, OutcomeUnknown) == {id}
    ensures var next := Resolve(w, resolution);
            && next.turn.phase == Runnable && next.turnId == w.turnId && id in w.ops && id in next.ops
            && next.ops == w.ops[id := next.ops[id]] && DecidedAs(w.ops[id], next.ops[id], id, resolution)
  {
    ResolutionCountsIff(w, resolution);
    assert id in OpsIn(w.ops, OutcomeUnknown);
    assert forall x :: OpsIn(w.ops, OutcomeUnknown) == {x} ==> x in {id};
  }

  lemma ConfirmedIsReplayed(w: World, c: string, slot: nat, a: nat, id: string)
    requires Inv(w) && a < U64_MAX && id == IdOf(w.turnId, Name(c, slot, a)) && id in w.ops
    requires w.turn.phase == AttentionRequired && MayConfirm(w.turn) && OpsIn(w.ops, OutcomeUnknown) == {id}
    ensures var next := Resolve(w, ConfirmCompleted);
            && next.turn.phase == Runnable
            && PlanFor(next.ops, SlotId(w.turnId, c, slot), w.ops[id].fingerprint) ==
               Replay(id, Payload(None, None, ConfirmedByOperator(id)))
  {
    var next := Resolve(w, ConfirmCompleted);
    Decided(w, ConfirmCompleted, id);
    ResolveKeeps(w, ConfirmCompleted);
    hide IdOf, SlotId, PlanFor, Resolve;
    StandingAttemptDecides(next, c, slot, a, id, w.ops[id].fingerprint);
  }

  lemma DeniedIsRetried(w: World, c: string, slot: nat, a: nat, id: string)
    requires Inv(w) && a < U64_MAX && id == IdOf(w.turnId, Name(c, slot, a)) && id in w.ops
    requires w.turn.phase == AttentionRequired && MayConfirm(w.turn) && OpsIn(w.ops, OutcomeUnknown) == {id}
    ensures var next := Resolve(w, ConfirmNotCompleted);
            && next.turn.phase == Runnable
            && PlanFor(next.ops, SlotId(w.turnId, c, slot), w.ops[id].fingerprint) == Lease(a + 1)
  {
    var next := Resolve(w, ConfirmNotCompleted);
    Decided(w, ConfirmNotCompleted, id);
    ResolveKeeps(w, ConfirmNotCompleted);
    ResolutionCountsIff(w, ConfirmNotCompleted);
    assert id in OpsIn(w.ops, OutcomeUnknown);
    hide IdOf, SlotId, Resolve, PlanFor;
    GivenUpIsRetried(w, next.ops, c, slot, a, id);
  }

  lemma SameNames(w: World, ops: Ledger)
    requires Inv(w) && NamesInv(w.turnId, ops, w.names)
    ensures ops.Keys == w.ops.Keys
  {
  }

  lemma GivenUpIsRetried(w: World, ops: Ledger, c: string, slot: nat, a: nat, id: string)
    requires Inv(w) && a < U64_MAX && id == IdOf(w.turnId, Name(c, slot, a)) && id in w.ops
    requires w.ops[id].phase != Superseded && NamesInv(w.turnId, ops, w.names)
    requires id in ops && ops[id].phase == Superseded
    ensures PlanFor(ops, SlotId(w.turnId, c, slot), ops[id].fingerprint) == Lease(a + 1)
  {
    hide IdOf, SlotId, AttemptsIn, NamesInv, Inv;
    LatestCovers(w.turnId, ops, w.names, c, slot, a);
    var top := Latest(ops, SlotId(w.turnId, c, slot)).value.0;
    SameNames(w, ops);
    StandingAttemptIsLast(w, c, slot, a, top);
  }

  /** A request that is to be leased takes its slot and asks for a lease under the wake's own claim; nothing
      is stored yet. */
  lemma LeaseIsAskedFor(w: World, k: string, callId: string, fingerprint: string, now: nat, refused: bool)
    requires k in w.wakes && w.wakes[k].inFlight.Idle?
    requires PlanFor(w.ops, SlotId(w.turnId, w.wakes[k].continuation, w.wakes[k].nextSlot), fingerprint).Lease?
    ensures var next := Prepare(w, k, callId, fingerprint, now, refused);
            var wake := w.wakes[k];
            && next == w.(wakes := next.wakes) && next.wakes == w.wakes[k := next.wakes[k]]
            && next.wakes[k] == wake.(nextSlot := next.wakes[k].nextSlot, inFlight := next.wakes[k].inFlight)
            && next.wakes[k].nextSlot == (wake.nextSlot + 1) % (U64_MAX + 1)
            && var asked := next.wakes[k].inFlight;
               && asked.Leasing? && asked.callId == callId
               && asked.name.continuation == wake.continuation && asked.name.slot == wake.nextSlot
               && asked.operation.phase == Leased && asked.operation.fingerprint == fingerprint
               && asked.operation.epoch == wake.epoch && asked.operation.leaseGeneration == wake.claimGeneration
               && asked.operation.continuation == wake.continuation && asked.operation.payload == None
               && asked.operation.revision == 1 && asked.operation.createdAt == now
  {
  }

  /** A request that can be neither leased nor replayed takes its slot and changes nothing else, except
      that it fails the drain unless the call was completed after a cancellation. */
  lemma OtherRequestsChangeNothing(w: World, k: string, callId: string, fingerprint: string, now: nat, refused: bool)
    requires k in w.wakes && w.wakes[k].inFlight.Idle?
    requires var plan := PlanFor(w.ops, SlotId(w.turnId, w.wakes[k].continuation, w.wakes[k].nextSlot), fingerprint);
             plan.Diverged? || plan.NotReplayable? || plan.NothingToDo?
    ensures var next := Prepare(w, k, callId, fingerprint, now, refused);
            var plan := PlanFor(w.ops, SlotId(w.turnId, w.wakes[k].continuation, w.wakes[k].nextSlot), fingerprint);
            && next == w.(wakes := next.wakes) && next.wakes == w.wakes[k := next.wakes[k]]
            && next.wakes[k] == w.wakes[k].(nextSlot := next.wakes[k].nextSlot, granted := next.wakes[k].granted)
            && next.wakes[k].nextSlot == (w.wakes[k].nextSlot + 1) % (U64_MAX + 1)
            && next.wakes[k].granted == (if plan.NothingToDo? then w.wakes[k].granted else [])
  {
  }

  /** A lease is granted exactly when nothing has happened to the turn since the claim and the name is
      free; it is then stored as asked for and waits for the end of the drain.  A refusal stores nothing
      and loses what the drain was granted before. */
  lemma LeaseIsGrantedIff(w: World, k: string, takenElsewhere: bool)
    requires Inv(w) && k in w.wakes && w.wakes[k].inFlight.Leasing?
    ensures var next := CommitLease(w, k, takenElsewhere);
            var lease := w.wakes[k].inFlight;
            var id := IdOf(w.turnId, lease.name);
            && (next.ops != w.ops <==> Untouched(w, k) && id !in w.ops && !takenElsewhere)
            && (next.ops != w.ops ==>
                  && next.ops == w.ops[id := lease.operation] && next.names == w.names[id := lease.name]
                  && next.wakes[k].granted == w.wakes[k].granted + [id]
                  && next.wakes[k].callOperations == w.wakes[k].callOperations[lease.callId := id])
            && (next.ops == w.ops ==>
                  && next.names == w.names && next.wakes[k].granted == []
                  && next.wakes[k].callOperations == w.wakes[k].callOperations)
            && next == w.(ops := next.ops, names := next.names, wakes := w.wakes[k := next.wakes[k]])
            && next.wakes[k].inFlight == Idle && SameClaim(next.wakes[k], w.wakes[k])
            && next.wakes[k].nextSlot == w.wakes[k].nextSlot
  {
    hide IdOf;
    assert WakeOk(w.turnId, w.ops, w.wakes[k]);
    FenceIsTheRevision(w, k, w.wakes[k].inFlight.operation.epoch);
    var lease := w.wakes[k].inFlight;
    if LeaseGranted(w.turn, w.ops, w.wakes[k], IdOf(w.turnId, lease.name), lease.operation, takenElsewhere) {
      GrantedIsFresh(w, k, takenElsewhere);
    }
  }

  /** A drain that fails before the ledger decides loses every lease it was granted, for good.  A malformed
      request takes no slot, so the next request is for the same one; an unreadable ledger takes it. */
  lemma AbortedDrainLosesItsLeases(w: World, k: string, slotTaken: bool, id: string, steps: seq<Step>)
    requires Inv(w) && k in w.wakes && w.wakes[k].inFlight.Idle? && id in w.wakes[k].granted
    ensures var next := AbortDrain(w, k, slotTaken);
            && next.ops == w.ops && next.dispatched == w.dispatched && next.delivered == w.delivered
            && next.wakes.Keys == w.wakes.Keys
            && next.wakes[k].nextSlot ==
               (if slotTaken then (w.wakes[k].nextSlot + 1) % (U64_MAX + 1) else w.wakes[k].nextSlot)
            && id !in Run(next, steps).dispatched
  {
    var next := AbortDrain(w, k, slotTaken);
    AbortKeeps(w, k, slotTaken);
    assert GrantOk(w.ops, w.dispatched, w.wakes[k].granted);
    forall l: string ensures !Holds(next, l, id) {
      assert l in w.wakes && l != k ==> id !in w.wakes[l].granted;
    }
    HandedOverIff(next, id);
  }

  // Results

  /** A result for a call of this wake is looked up: for an open call it is about to be recorded, addressed to
      the wake and the call; for a completed one it is delivered again exactly when it is the recorded
      result and the run takes it. */
  lemma ResultIsLookedUp(w: World, k: string, callId: string, text: string, refused: bool)
    requires k in w.wakes && w.wakes[k].inFlight.Idle?
    requires callId in w.wakes[k].callOperations && w.wakes[k].callOperations[callId] in w.ops
    ensures var next := BeginComplete(w, k, callId, text, refused);
            var id := w.wakes[k].callOperations[callId];
            var payload := Payload(Some(k), Some(callId), FromHost(text));
            && next == w.(wakes := next.wakes, delivered := next.delivered)
            && (w.ops[id].phase == Leased <==> next.wakes != w.wakes)
            && (w.ops[id].phase == Leased ==>
                  next.wakes == w.wakes[k := w.wakes[k].(inFlight := Completing(callId, id, w.ops[id], payload))])
            && next.delivered ==
               w.delivered + (if w.ops[id].phase == Done && w.ops[id].payload == Some(payload) && !refused
                              then [Delivery(id, payload)] else [])
  {
    var id := w.wakes[k].callOperations[callId];
    if w.ops[id].phase == Leased {
      assert BeginComplete(w, k, callId, text, refused).wakes[k].inFlight.Completing?;
    }
  }

  /** A result is recorded exactly when its call is still open and either nothing has happened to the turn
      since the claim that leased it, or the turn was cancelled.  In the first case the call is done and the
      run is given the result if it takes it; in the second the result is kept and nobody gets it.
      Otherwise nothing changes. */
  lemma ResultIsRecordedIff(w: World, k: string, refused: bool)
    requires Inv(w) && k in w.wakes && w.wakes[k].inFlight.Completing?
    ensures var next := CommitComplete(w, k, refused);
            var (id, payload) := (w.wakes[k].inFlight.operationId, w.wakes[k].inFlight.payload);
            id in w.ops && id in next.ops &&
            var (o, o') := (w.ops[id], next.ops[id]);
            var isOpen := o.phase == Leased;
            var current := Untouched(w, k) && o.epoch == w.wakes[k].epoch;
            var cancelled := w.turn.cancellationGeneration != w.wakes[k].cancellationGeneration
                             || w.turn.phase in {CancelRequested, Cancelled};
            && (o' != o <==> isOpen && (current || cancelled))
            && (o' != o ==>
                  o' == o.(phase := if current then Done else DoneAfterCancel, payload := Some(payload), revision := 2))
            && next.delivered == w.delivered + (if isOpen && current && !refused then [Delivery(id, payload)] else [])
            && next == w.(ops := w.ops[id := o'], delivered := next.delivered,
                          wakes := w.wakes[k := w.wakes[k].(inFlight := Idle)])
  {
    var c := w.wakes[k].inFlight;
    assert WakeOk(w.turnId, w.ops, w.wakes[k]) && RecordOk(w.ops[c.operationId]);
    FenceIsTheRevision(w, k, c.observed.epoch);
  }

  /** In particular, from any world a run has reached: an open call of a live wake whose turn is cancelled
      before the host answers keeps the answer, and nobody is given it. */
  lemma LateResultIsKept(w: World, k: string, callId: string, text: string, refused: bool)
    requires Inv(w) && !w.turn.phase.IsTerminal() && k in w.wakes && w.wakes[k].inFlight.Idle?
    requires callId in w.wakes[k].callOperations && w.wakes[k].callOperations[callId] in w.ops
    requires w.ops[w.wakes[k].callOperations[callId]].phase == Leased
    ensures var id := w.wakes[k].callOperations[callId];
            var end := CommitComplete(BeginComplete(Cancel(w), k, callId, text, refused), k, refused);
            && end.ops == w.ops[id := end.ops[id]]
            && end.ops[id].phase == DoneAfterCancel
            && end.ops[id].payload == Some(Payload(Some(k), Some(callId), FromHost(text)))
            && end.delivered == w.delivered && end.dispatched == w.dispatched
  {
    var cancelled := Cancel(w);
    CancellationEndsTheTurn(w);
    CancelKeeps(w);
    ResultIsLookedUp(cancelled, k, callId, text, refused);
    BeginCompleteKeeps(cancelled, k, callId, text, refused);
    ResultIsRecordedIff(BeginComplete(cancelled, k, callId, text, refused), k, refused);
  }
}
