/** Which leases reach the host: at most once each, and exactly those a live drain can still return. */
module LedgerHandOver {
  import opened Wrappers
  import opened Text
  import opened OperationIds
  import opened OperationLedger
  import opened LedgerSafety
  import opened LedgerRuns

  /** Over every run, only stored operations are handed to the host, each at most once, and what still
      waits to be handed over has not been. */
  lemma DispatchedAtMostOnce(turnId: string, continuation: string, revision: nat, steps: seq<Step>)
    ensures var w := Run(NewWorld(turnId, continuation, revision), steps);
            && (forall i, j :: 0 <= i < j < |w.dispatched| ==> w.dispatched[i] != w.dispatched[j])
            && (forall id <- w.dispatched :: id in w.ops)
            && (forall k <- w.wakes :: forall id <- w.wakes[k].granted :: id in w.ops && id !in w.dispatched)
  {
    EveryRunIsSafe(turnId, continuation, revision, steps);
    var w := Run(NewWorld(turnId, continuation, revision), steps);
    forall k <- w.wakes ensures forall id <- w.wakes[k].granted :: id in w.ops && id !in w.dispatched {
      assert GrantOk(w.ops, w.dispatched, w.wakes[k].granted);
    }
  }

  // Leased but not handed over

  /** The wake's drain can still succeed: it is not inside a lease request that must be refused. */
  predicate StillOpen(w: World, wake: Wake) {
    wake.inFlight.Leasing? ==> wake.revision == w.turn.revision && IdOf(w.turnId, wake.inFlight.name) !in w.ops
  }

  predicate Holds(w: World, k: string, id: string) {
    k in w.wakes && id in w.wakes[k].granted
  }

  /** Some live wake holds the lease and its drain can still succeed. */
  ghost predicate CanBeHandedOver(w: World, id: string) {
    exists k: string :: Holds(w, k, id) && StillOpen(w, w.wakes[k])
  }

  /** Stored, not handed over, and beyond reach. */
  ghost predicate Lost(w: World, id: string) {
    id in w.ops && id !in w.dispatched && !CanBeHandedOver(w, id)
  }

  /** What keeps an operation lost: whoever still holds it is the same wake, in the same request. */
  lemma StillLost(w: World, next: World, id: string)
    requires ClaimsInv(w.turn, w.wakes) && Lost(w, id) && Later(w, next) && id !in next.dispatched
    requires forall k: string | Holds(next, k, id) :: k in w.wakes && next.wakes[k] == w.wakes[k]
    ensures Lost(next, id)
  {
    forall k: string | Holds(next, k, id) ensures !StillOpen(next, next.wakes[k]) {
      assert Holds(w, k, id) && !StillOpen(w, w.wakes[k]) && ClaimOk(w.turn, w.wakes[k]);
    }
  }

  /** A request that must be refused is refused whatever the store says about other turns. */
  lemma ClosedIsRefused(w: World, k: string, takenElsewhere: bool)
    requires Inv(w) && k in w.wakes && w.wakes[k].inFlight.Leasing? && !StillOpen(w, w.wakes[k])
    ensures CommitLease(w, k, takenElsewhere) == w.(wakes := w.wakes[k := w.wakes[k].(inFlight := Idle, granted := [])])
  {
    assert WakeOk(w.turnId, w.ops, w.wakes[k]) && ClaimOk(w.turn, w.wakes[k]);
  }

  lemma OpenIsGranted(w: World, k: string)
    requires Inv(w) && k in w.wakes && w.wakes[k].inFlight.Leasing? && StillOpen(w, w.wakes[k])
    ensures var lease := w.wakes[k].inFlight;
            LeaseGranted(w.turn, w.ops, w.wakes[k], IdOf(w.turnId, lease.name), lease.operation, false)
  {
    assert WakeOk(w.turnId, w.ops, w.wakes[k]) && ClaimOk(w.turn, w.wakes[k]);
  }

  lemma OnlyOneWakeChanges(w: World, k: string, takenElsewhere: bool, l: string)
    requires l != k && l in CommitLease(w, k, takenElsewhere).wakes
    ensures l in w.wakes && CommitLease(w, k, takenElsewhere).wakes[l] == w.wakes[l]
  {
  }

  lemma LeaseHandsNothingOver(w: World, k: string, takenElsewhere: bool)
    ensures CommitLease(w, k, takenElsewhere).dispatched == w.dispatched
    ensures k !in w.wakes || !w.wakes[k].inFlight.Leasing? ==> CommitLease(w, k, takenElsewhere) == w
  {
  }

  lemma LeasingKeepsLost(w: World, k: string, takenElsewhere: bool, id: string)
    requires Inv(w) && Lost(w, id)
    ensures Lost(CommitLease(w, k, takenElsewhere), id)
  {
    var next := CommitLease(w, k, takenElsewhere);
    CommitLeaseLater(w, k, takenElsewhere);
    LeaseHandsNothingOver(w, k, takenElsewhere);
    if k in w.wakes && w.wakes[k].inFlight.Leasing? {
      LeaseDoesNotHold(w, k, takenElsewhere, id);
      forall l: string | Holds(next, l, id) ensures l in w.wakes && next.wakes[l] == w.wakes[l] {
        OnlyOneWakeChanges(w, k, takenElsewhere, l);
      }
      StillLost(w, next, id);
    }
  }

  lemma LeaseDoesNotHold(w: World, k: string, takenElsewhere: bool, id: string)
    requires Inv(w) && Lost(w, id) && k in w.wakes && w.wakes[k].inFlight.Leasing?
    ensures !Holds(CommitLease(w, k, takenElsewhere), k, id)
  {
    if Holds(w, k, id) {
      assert !StillOpen(w, w.wakes[k]);
      ClosedIsRefused(w, k, takenElsewhere);
    } else {
      NewGrantIsAnother(w, k, takenElsewhere, id);
    }
  }

  lemma NewGrantIsAnother(w: World, k: string, takenElsewhere: bool, id: string)
    requires Inv(w) && id in w.ops && !Holds(w, k, id) && k in w.wakes && w.wakes[k].inFlight.Leasing?
    ensures !Holds(CommitLease(w, k, takenElsewhere), k, id)
  {
    var wake := w.wakes[k];
    var lease := wake.inFlight;
    if LeaseGranted(w.turn, w.ops, wake, IdOf(w.turnId, lease.name), lease.operation, takenElsewhere) {
      GrantedIsFresh(w, k, takenElsewhere);
    }
  }

  lemma HandOverKeepsLost(w: World, k: string, id: string)
    requires Inv(w) && Lost(w, id)
    ensures Lost(HandOver(w, k), id)
  {
    HandOverLater(w, k);
    if k in w.wakes && w.wakes[k].inFlight.Idle? {
      assert StillOpen(w, w.wakes[k]);
      assert !Holds(w, k, id);
    }
    StillLost(w, HandOver(w, k), id);
  }

  /** The remaining steps neither grant nor hand over, and change no wake that is asking for a lease. */
  predicate GrantsNothing(step: Step) {
    !step.CommitLeaseStep? && !step.HandOverStep?
  }

  lemma HoldersStay(w: World, step: Step, k: string, id: string)
    requires GrantsNothing(step) && Holds(Take(w, step), k, id)
    ensures Holds(w, k, id) && (!w.wakes[k].inFlight.Leasing? || Take(w, step).wakes[k] == w.wakes[k])
    ensures Take(w, step).dispatched == w.dispatched
  {
  }

  lemma NothingHandedOver(w: World, step: Step)
    requires GrantsNothing(step)
    ensures Take(w, step).dispatched == w.dispatched
  {
  }

  lemma StepKeepsLost(w: World, step: Step, id: string)
    requires Inv(w) && Lost(w, id)
    ensures Lost(Take(w, step), id)
  {
    if step.CommitLeaseStep? {
      LeasingKeepsLost(w, step.wakeId, step.takenElsewhere, id);
    } else if step.HandOverStep? {
      HandOverKeepsLost(w, step.wakeId, id);
    } else {
      StepIsLater(w, step);
      NothingHandedOver(w, step);
      forall k: string | Holds(Take(w, step), k, id) ensures k in w.wakes && Take(w, step).wakes[k] == w.wakes[k] {
        HoldersStay(w, step, k, id);
        assert !StillOpen(w, w.wakes[k]);
      }
      StillLost(w, Take(w, step), id);
    }
  }

  lemma {:induction false} LostForever(w: World, steps: seq<Step>, id: string)
    requires Inv(w) && Lost(w, id)
    ensures Lost(Run(w, steps), id)
  {
    if steps != [] {
      LostForever(w, steps[..|steps| - 1], id);
      RunKeeps(w, steps[..|steps| - 1]);
      StepKeepsLost(Run(w, steps[..|steps| - 1]), steps[|steps| - 1], id);
    }
  }

  /** The steps that hand over a lease that can still be handed over. */
  function FinishDrain(wake: Wake, k: string): seq<Step> {
    match wake.inFlight
    case Idle => [HandOverStep(k)]
    case Leasing(_, _, _) => [CommitLeaseStep(k, false), HandOverStep(k)]
    case Completing(_, _, _, _) => [CommitCompleteStep(k, false), HandOverStep(k)]
  }

  lemma IdleHandsOver(w: World, k: string, id: string)
    requires Holds(w, k, id) && w.wakes[k].inFlight.Idle?
    ensures id in HandOver(w, k).dispatched
  {
  }

  lemma GrantedKeepsHolding(w: World, k: string, id: string)
    requires Inv(w) && Holds(w, k, id) && w.wakes[k].inFlight.Leasing? && StillOpen(w, w.wakes[k])
    ensures var next := CommitLease(w, k, false);
            Holds(next, k, id) && next.wakes[k].inFlight.Idle?
  {
    OpenIsGranted(w, k);
  }

  lemma LeasingHandsOver(w: World, k: string, id: string)
    requires Inv(w) && Holds(w, k, id) && w.wakes[k].inFlight.Leasing? && StillOpen(w, w.wakes[k])
    ensures id in Run(w, [CommitLeaseStep(k, false), HandOverStep(k)]).dispatched
  {
    hide Inv, Run, StillOpen, Holds, CommitLease, HandOver;
    TwoSteps(w, CommitLeaseStep(k, false), HandOverStep(k));
    GrantedKeepsHolding(w, k, id);
    IdleHandsOver(CommitLease(w, k, false), k, id);
  }

  lemma CompletingHandsOver(w: World, k: string, id: string)
    requires Holds(w, k, id) && w.wakes[k].inFlight.Completing?
    ensures id in Run(w, [CommitCompleteStep(k, false), HandOverStep(k)]).dispatched
  {
    TwoSteps(w, CommitCompleteStep(k, false), HandOverStep(k));
    CompletionFrame(w, k, false);
    IdleHandsOver(CommitComplete(w, k, false), k, id);
  }

  lemma DrainHandsOver(w: World, k: string, id: string)
    requires Inv(w) && Holds(w, k, id) && StillOpen(w, w.wakes[k])
    ensures id in Run(w, FinishDrain(w.wakes[k], k)).dispatched
  {
    if w.wakes[k].inFlight.Idle? {
      OneStep(w, HandOverStep(k));
      IdleHandsOver(w, k, id);
    } else if w.wakes[k].inFlight.Leasing? {
      LeasingHandsOver(w, k, id);
    } else {
      CompletingHandsOver(w, k, id);
    }
  }

  lemma ReachedMeansReachable(w: World, steps: seq<Step>, id: string)
    requires Inv(w) && id in w.ops && id in Run(w, steps).dispatched
    ensures id in w.dispatched || CanBeHandedOver(w, id)
  {
    if Lost(w, id) {
      LostForever(w, steps, id);
    }
  }

  /** The exact condition: a stored operation ever reaches the host exactly when it already has, or when
      a live wake holds its lease in a drain that can still succeed.  Otherwise a failed drain or the
      end of its process has lost it, and no run brings it back. */
  lemma HandedOverIff(w: World, id: string)
    requires Inv(w) && id in w.ops
    ensures (exists steps: seq<Step> :: id in Run(w, steps).dispatched) <==>
            id in w.dispatched || CanBeHandedOver(w, id)
  {
    if exists steps: seq<Step> :: id in Run(w, steps).dispatched {
      var steps: seq<Step> :| id in Run(w, steps).dispatched;
      ReachedMeansReachable(w, steps, id);
    }
    if id in w.dispatched {
      assert id in Run(w, []).dispatched;
    } else if CanBeHandedOver(w, id) {
      var k: string :| Holds(w, k, id) && StillOpen(w, w.wakes[k]);
      DrainHandsOver(w, k, id);
    }
  }

  /** A claim, a request that is leased, and a second one in the middle of which the turn is cancelled:
      one drain with two requests. */
  function TwoRequests(service: string, k: string, call: string, fingerprint: string,
                       call': string, fingerprint': string, now: nat)
    : seq<Step>
  {
    [ClaimStep(k, service), PrepareStep(k, call, fingerprint, now, false), CommitLeaseStep(k, false)] +
    [PrepareStep(k, call', fingerprint', now, false), CancelStep, CommitLeaseStep(k, false)]
  }

  /** The second lease is refused, and with it the drain.  The first operation stays stored and, as
      `HandedOverIff` says, never reaches the host. */
  lemma FailedDrainLosesItsLeases(turnId: string, c: string, revision: nat, service: string, k: string,
                                  call: string, fingerprint: string, call': string, fingerprint': string, now: nat)
    ensures var w := Run(NewWorld(turnId, c, revision),
                         TwoRequests(service, k, call, fingerprint, call', fingerprint', now));
            var id := IdOf(turnId, Name(c, 0, 0));
            Inv(w) && Lost(w, id) && w.ops[id].phase == Leased
  {
    var w0 := NewWorld(turnId, c, revision);
    EveryRunIsSafe(turnId, c, revision, TwoRequests(service, k, call, fingerprint, call', fingerprint', now));
    var w1 := Claim(w0, k, service);
    ClaimedAnew(turnId, c, revision, service, k);
    var w3 := CommitLease(Prepare(w1, k, call, fingerprint, now, false), k, false);
    FirstRequestIsLeased(w1, c, k, call, fingerprint, now, w3);
    var w4 := Prepare(w3, k, call', fingerprint', now, false);
    SecondRequestFails(w3, c, k, w4, call', fingerprint', now);
    TwoRequestsRun(w0, w1, w3, w4, service, k, call, fingerprint, call', fingerprint', now);
  }

  lemma ClaimedAnew(turnId: string, c: string, revision: nat, service: string, k: string)
    ensures var w := Claim(NewWorld(turnId, c, revision), k, service);
            w.turnId == turnId && JustClaimed(w, c, k)
  {
  }

  lemma TwoRequestsRun(w0: World, w1: World, w3: World, w4: World, service: string, k: string,
                       call: string, fingerprint: string, call': string, fingerprint': string, now: nat)
    requires w1 == Claim(w0, k, service)
    requires w3 == CommitLease(Prepare(w1, k, call, fingerprint, now, false), k, false)
    requires w4 == Prepare(w3, k, call', fingerprint', now, false)
    ensures Run(w0, TwoRequests(service, k, call, fingerprint, call', fingerprint', now)) ==
            CommitLease(Cancel(w4), k, false)
  {
    var lease := CommitLeaseStep(k, false);
    var claim, ask := ClaimStep(k, service), PrepareStep(k, call, fingerprint, now, false);
    var ask' := PrepareStep(k, call', fingerprint', now, false);
    ThreeSteps(w0, claim, ask, lease);
    ThreeSteps(w3, ask', CancelStep, lease);
    RunConcat(w0, [claim, ask, lease], [ask', CancelStep, lease]);
  }

  /** One wake, between the first and the second request of its first drain. */
  predicate OneGrant(w: World, c: string, k: string) {
    var id := IdOf(w.turnId, Name(c, 0, 0));
    && w.turn.phase == Running && w.wakes.Keys == {k} && w.dispatched == [] && w.ops.Keys == {id}
    && w.wakes[k].inFlight == Idle && w.wakes[k].granted == [id]
    && w.wakes[k].nextSlot == 1 && w.wakes[k].continuation == c
    && w.ops[id].phase == Leased
  }

  /** A turn just claimed by one wake, with nothing stored. */
  predicate JustClaimed(w: World, c: string, k: string) {
    && w.turn.phase == Running && w.wakes.Keys == {k} && w.dispatched == [] && w.ops == map[]
    && w.wakes[k] == NewWake(w.turn, w.wakes[k].epoch)
    && w.turn.epoch == Some(w.wakes[k].epoch) && w.turn.continuation == c
  }

  lemma FirstRequestIsLeased(w: World, c: string, k: string, call: string, fingerprint: string, now: nat, next: World)
    requires JustClaimed(w, c, k) && next == CommitLease(Prepare(w, k, call, fingerprint, now, false), k, false)
    ensures next.turnId == w.turnId && OneGrant(next, c, k)
  {
    assert AttemptsIn(w.ops, SlotId(w.turnId, c, 0)) == {};
    AskingForALease(w, k, call, fingerprint, now);
    var prepared := Prepare(w, k, call, fingerprint, now, false);
    assert prepared.wakes[k].inFlight == Leasing(call, Name(c, 0, 0), NewLease(w.wakes[k], fingerprint, now));
    FirstLeaseIsGranted(prepared, c, k, next);
  }

  lemma FirstLeaseIsGranted(w: World, c: string, k: string, next: World)
    requires w.wakes.Keys == {k} && w.dispatched == [] && w.ops == map[]
    requires w.wakes[k].inFlight.Leasing? && w.wakes[k].inFlight.name == Name(c, 0, 0) && w.wakes[k].granted == []
    requires w.wakes[k].nextSlot == 1 && w.wakes[k].continuation == c
    requires FenceHolds(w.turn, w.wakes[k], w.wakes[k].inFlight.operation.epoch)
             && w.wakes[k].inFlight.operation.phase == Leased
    requires next == CommitLease(w, k, false)
    ensures next.turnId == w.turnId && OneGrant(next, c, k)
  {
    assert next.ops == map[IdOf(w.turnId, Name(c, 0, 0)) := w.wakes[k].inFlight.operation];
  }

  lemma AskingForALease(w: World, k: string, call: string, fingerprint: string, now: nat)
    requires k in w.wakes && w.wakes[k].inFlight.Idle?
    requires PlanFor(w.ops, SlotId(w.turnId, w.wakes[k].continuation, w.wakes[k].nextSlot), fingerprint) == Lease(0)
    ensures var next := Prepare(w, k, call, fingerprint, now, false);
            && next.wakes.Keys == w.wakes.Keys && next.wakes[k].inFlight.Leasing?
            && next == w.(wakes := next.wakes)
  {
  }

  /** Whatever the second request asks for, a cancellation in the middle of it fails the drain. */
  lemma SecondRequestFails(w: World, c: string, k: string, prepared: World, call: string, fingerprint: string, now: nat)
    requires OneGrant(w, c, k) && prepared == Prepare(w, k, call, fingerprint, now, false)
    ensures var next := CommitLease(Cancel(prepared), k, false);
            var id := IdOf(w.turnId, Name(c, 0, 0));
            Lost(next, id) && next.ops[id].phase == Leased
  {
    SecondSlotIsFree(w.turnId, w.ops, c, fingerprint);
    AskingForALease(w, k, call, fingerprint, now);
    LeaseOfCancelledTurn(Cancel(prepared), k, IdOf(w.turnId, Name(c, 0, 0)));
  }

  lemma LeaseOfCancelledTurn(w: World, k: string, id: string)
    requires w.turn.phase == Cancelled && w.wakes.Keys == {k} && w.wakes[k].inFlight.Leasing?
    requires id in w.ops && id !in w.dispatched
    ensures var next := CommitLease(w, k, false);
            Lost(next, id) && next.ops == w.ops
  {
    var next := CommitLease(w, k, false);
    assert next == w.(wakes := w.wakes[k := w.wakes[k].(inFlight := Idle, granted := [])]);
    forall l: string ensures !Holds(next, l, id) {
      assert l in next.wakes ==> l == k;
    }
  }

  lemma SecondSlotIsFree(turnId: string, ops: Ledger, c: string, fingerprint: string)
    requires ops.Keys == {IdOf(turnId, Name(c, 0, 0))}
    ensures PlanFor(ops, SlotId(turnId, c, 1), fingerprint) == Lease(0)
  {
    AttemptsAreReadBackExactly(turnId, c, 1, c, 0, 0);
    assert AttemptsIn(ops, SlotId(turnId, c, 1)) == {};
  }

  // Completed slots

  /** Once an attempt of a slot has a result, the slot is not handed to the host again, except for a
      lease that a live wake was already holding in a drain that could still succeed. */
  lemma CompletedSlotIsNeverDispatchedAgain(w: World, steps: seq<Step>, c: string, slot: nat, a: nat, b: nat, i: nat)
    requires Inv(w) && a <= U64_MAX && b <= U64_MAX && IdOf(w.turnId, Name(c, slot, a)) in w.ops
    requires w.ops[IdOf(w.turnId, Name(c, slot, a))].phase == Done
             || w.ops[IdOf(w.turnId, Name(c, slot, a))].phase == DoneAfterCancel
    requires |w.dispatched| <= i < |Run(w, steps).dispatched|
    requires Run(w, steps).dispatched[i] == IdOf(w.turnId, Name(c, slot, b))
    ensures CanBeHandedOver(w, IdOf(w.turnId, Name(c, slot, b)))
  {
    var end := Run(w, steps);
    var done, other := IdOf(w.turnId, Name(c, slot, a)), IdOf(w.turnId, Name(c, slot, b));
    RunKeeps(w, steps);
    RunIsLater(w, steps);
    SettledOperationsAreFinal(w, steps, done);
    NoNewAttempt(w, end, c, slot, a, b);
    NotDispatchedBefore(w, end, other, i);
    HandedOverIff(w, other);
  }

  /** Outside drains, then, never: when no live wake holds a lease, no run hands a completed slot over. */
  lemma CompletedSlotIsQuietBetweenDrains(w: World, steps: seq<Step>, c: string, slot: nat, a: nat, b: nat, i: nat)
    requires Inv(w) && a <= U64_MAX && b <= U64_MAX && IdOf(w.turnId, Name(c, slot, a)) in w.ops
    requires w.ops[IdOf(w.turnId, Name(c, slot, a))].phase == Done
             || w.ops[IdOf(w.turnId, Name(c, slot, a))].phase == DoneAfterCancel
    requires forall k <- w.wakes :: w.wakes[k].granted == []
    requires |w.dispatched| <= i < |Run(w, steps).dispatched|
    ensures Run(w, steps).dispatched[i] != IdOf(w.turnId, Name(c, slot, b))
  {
    if Run(w, steps).dispatched[i] == IdOf(w.turnId, Name(c, slot, b)) {
      CompletedSlotIsNeverDispatchedAgain(w, steps, c, slot, a, b, i);
    }
  }

  /** A slot with a result gains no attempt. */
  lemma NoNewAttempt(w: World, end: World, c: string, slot: nat, a: nat, b: nat)
    requires Inv(w) && Inv(end) && end.turnId == w.turnId && a <= U64_MAX && b <= U64_MAX
    requires IdOf(w.turnId, Name(c, slot, a)) in w.ops && IdOf(w.turnId, Name(c, slot, a)) in end.ops
    requires end.ops[IdOf(w.turnId, Name(c, slot, a))].phase != Superseded
    requires IdOf(w.turnId, Name(c, slot, b)) in end.ops
    ensures IdOf(w.turnId, Name(c, slot, b)) in w.ops
  {
    if a < b {
      SlotIsAChain(end, c, slot, a, b);
    } else if b < a {
      SlotIsAChain(w, c, slot, b, a);
    }
  }

  lemma NotDispatchedBefore(w: World, end: World, id: string, i: nat)
    requires Inv(end) && Later(w, end) && |w.dispatched| <= i < |end.dispatched| && end.dispatched[i] == id
    ensures id !in w.dispatched
  {
    assert Distinct(end.dispatched);
    forall j | 0 <= j < |w.dispatched| ensures w.dispatched[j] != id {
      assert end.dispatched[j] == w.dispatched[j];
    }
  }

  // After the turn ended

  /** Nothing is stored, no operation gains a deliverable result, and only leases that were already held
      are still handed over. */
  ghost predicate NothingNew(w: World, next: World) {
    && next.turn.phase == w.turn.phase
    && next.ops.Keys == w.ops.Keys
    && (forall id <- next.ops :: next.ops[id].phase == Done ==> w.ops[id].phase == Done)
    && (forall k: string, id: string | Holds(next, k, id) :: Holds(w, k, id))
    && (forall id <- next.dispatched :: id in w.dispatched || exists k: string :: Holds(w, k, id))
  }

  lemma EndedStep(w: World, step: Step)
    requires w.turn.phase.IsTerminal()
    ensures NothingNew(w, Take(w, step))
  {
    if step.HandOverStep? {
      EndedHandOver(w, step.wakeId);
    } else if step.CommitLeaseStep? {
      EndedLease(w, step.wakeId, step.takenElsewhere);
    } else {
      NothingHandedOver(w, step);
      forall k: string, id: string | Holds(Take(w, step), k, id) ensures Holds(w, k, id) {
        HoldersStay(w, step, k, id);
      }
      EndedOperations(w, step);
    }
  }

  lemma EndedOperations(w: World, step: Step)
    requires w.turn.phase.IsTerminal() && GrantsNothing(step)
    ensures Take(w, step).turn.phase == w.turn.phase && Take(w, step).ops.Keys == w.ops.Keys
    ensures forall id <- w.ops :: Take(w, step).ops[id].phase == Done ==> w.ops[id].phase == Done
  {
  }

  lemma EndedHandOver(w: World, k: string)
    ensures NothingNew(w, HandOver(w, k))
  {
    forall id <- HandOver(w, k).dispatched ensures id in w.dispatched || exists l: string :: Holds(w, l, id) {
      assert id in w.dispatched || Holds(w, k, id);
    }
  }

  lemma EndedLease(w: World, k: string, takenElsewhere: bool)
    requires w.turn.phase.IsTerminal()
    ensures NothingNew(w, CommitLease(w, k, takenElsewhere))
  {
  }

  lemma NothingNewTransitive(u: World, v: World, w: World)
    requires NothingNew(u, v) && NothingNew(v, w)
    ensures NothingNew(u, w)
  {
    forall id <- w.dispatched ensures id in u.dispatched || exists k: string :: Holds(u, k, id) {
      if id !in v.dispatched {
        var k: string :| Holds(v, k, id);
        assert Holds(u, k, id);
      }
    }
  }

  /** After a turn completes, fails or is cancelled, no run stores or completes anything: a late host
      result is at most noted as done after cancel, and the host gets at most what a drain held. */
  lemma {:induction false} EndedTurnStaysQuiet(w: World, steps: seq<Step>)
    requires w.turn.phase.IsTerminal()
    ensures NothingNew(w, Run(w, steps))
  {
    if steps != [] {
      var mid := Run(w, steps[..|steps| - 1]);
      EndedTurnStaysQuiet(w, steps[..|steps| - 1]);
      EndedStep(mid, steps[|steps| - 1]);
      NothingNewTransitive(w, mid, Run(w, steps));
    }
  }
}
