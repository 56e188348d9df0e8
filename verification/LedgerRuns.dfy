/** What the ledger promises over every run of its transactions. */
module LedgerRuns {
  import opened Text
  import opened OperationIds
  import opened OperationLedger
  import opened LedgerSafety

  lemma {:induction false} RunKeeps(w: World, steps: seq<Step>)
    requires Inv(w)
    ensures Inv(Run(w, steps))
  {
    if steps != [] {
      RunKeeps(w, steps[..|steps| - 1]);
      StepKeeps(Run(w, steps[..|steps| - 1]), steps[|steps| - 1]);
    }
  }

  lemma EveryRunIsSafe(turnId: string, continuation: string, revision: nat, steps: seq<Step>)
    ensures Inv(Run(NewWorld(turnId, continuation, revision), steps))
  {
    RunKeeps(NewWorld(turnId, continuation, revision), steps);
  }

  // Putting runs together

  lemma RunAppend(w: World, steps: seq<Step>, step: Step)
    ensures Run(w, steps + [step]) == Take(Run(w, steps), step)
  {
    hide Take;
    assert (steps + [step])[..|steps|] == steps;
  }

  lemma {:induction false} RunConcat(w: World, a: seq<Step>, b: seq<Step>)
    ensures Run(w, a + b) == Run(Run(w, a), b)
    decreases |b|
  {
    hide Take;
    if b == [] {
      assert a + b == a;
    } else {
      var n := |b| - 1;
      RunConcat(w, a, b[..n]);
      assert (a + b)[..|a + b| - 1] == a + b[..n];
    }
  }

  lemma OneStep(w: World, a: Step)
    ensures Run(w, [a]) == Take(w, a)
  {
    hide Take;
    RunAppend(w, [], a);
    assert Run(w, []) == w && [] + [a] == [a];
  }

  lemma TwoSteps(w: World, a: Step, b: Step)
    ensures Run(w, [a, b]) == Take(Take(w, a), b)
  {
    hide Take;
    OneStep(w, a);
    RunAppend(w, [a], b);
    assert [a] + [b] == [a, b];
  }

  lemma ThreeSteps(w: World, a: Step, b: Step, c: Step)
    ensures Run(w, [a, b, c]) == Take(Take(Take(w, a), b), c)
  {
    hide Take;
    TwoSteps(w, a, b);
    RunAppend(w, [a, b], c);
    assert [a, b] + [c] == [a, b, c];
  }

  // The shape of a slot

  lemma FollowsInLedger(w: World, name: Name)
    requires Inv(w) && name.attempt <= U64_MAX && IdOf(w.turnId, name) in w.ops
    ensures FollowsGivenUp(w.turnId, w.ops, name, w.ops[IdOf(w.turnId, name)].fingerprint)
  {
    var id := IdOf(w.turnId, name);
    assert Named(w.turnId, id, w.names[id], w.ops[id].continuation);
    SameId(w.turnId, w.names, id, name);
    assert FollowsGivenUp(w.turnId, w.ops, w.names[id], w.ops[id].fingerprint);
  }

  /** Attempts of a slot are contiguous from zero, ask for the same thing, and every attempt but the
      last was given up. */
  lemma {:induction false} SlotIsAChain(w: World, c: string, slot: nat, a: nat, b: nat)
    requires Inv(w) && a < b <= U64_MAX && IdOf(w.turnId, Name(c, slot, b)) in w.ops
    ensures var earlier, later := IdOf(w.turnId, Name(c, slot, a)), IdOf(w.turnId, Name(c, slot, b));
            && earlier in w.ops && w.ops[earlier].phase == Superseded
            && w.ops[earlier].fingerprint == w.ops[later].fingerprint
    decreases b - a
  {
    var name := Name(c, slot, b);
    FollowsInLedger(w, name);
    assert name.(attempt := b - 1) == Name(c, slot, b - 1);
    if a < b - 1 {
      SlotIsAChain(w, c, slot, a, b - 1);
    }
  }

  /** At most one attempt of a slot was not given up; in particular at most one has a result. */
  lemma AtMostOneAttemptStands(w: World, c: string, slot: nat, a: nat, b: nat)
    requires Inv(w) && a <= U64_MAX && b <= U64_MAX
    requires var first, second := IdOf(w.turnId, Name(c, slot, a)), IdOf(w.turnId, Name(c, slot, b));
             && first in w.ops && w.ops[first].phase != Superseded
             && second in w.ops && w.ops[second].phase != Superseded
    ensures a == b
  {
    if a < b {
      SlotIsAChain(w, c, slot, a, b);
    } else if b < a {
      SlotIsAChain(w, c, slot, b, a);
    }
  }

  /** A request is leased, and so can be dispatched, exactly when every stored attempt of its slot
      was given up and asked for the same thing. */
  lemma LeasesIffAllGivenUp(w: World, c: string, slot: nat, fingerprint: string)
    requires Inv(w)
    ensures PlanFor(w.ops, SlotId(w.turnId, c, slot), fingerprint).Lease? <==>
            forall a: nat | a <= U64_MAX && IdOf(w.turnId, Name(c, slot, a)) in w.ops ::
              var o := w.ops[IdOf(w.turnId, Name(c, slot, a))];
              o.phase == Superseded && o.fingerprint == fingerprint
  {
    LatestIsTheLatest(w.turnId, w.ops, w.names, c, slot);
    var latest := Latest(w.ops, SlotId(w.turnId, c, slot));
    if latest.Some? {
      var top := latest.value.0;
      assert IdOf(w.turnId, Name(c, slot, top)) in w.ops;
      forall a: nat | a <= U64_MAX && IdOf(w.turnId, Name(c, slot, a)) in w.ops && a != top
        ensures w.ops[IdOf(w.turnId, Name(c, slot, a))].phase == Superseded
        ensures w.ops[IdOf(w.turnId, Name(c, slot, a))].fingerprint ==
                w.ops[IdOf(w.turnId, Name(c, slot, top))].fingerprint
      {
        SlotIsAChain(w, c, slot, a, top);
      }
    }
  }

  // What a step may change

  ghost predicate Later(w: World, next: World) {
    && next.turnId == w.turnId
    && (forall id <- w.ops :: id in next.ops && Evolves(w.ops[id], next.ops[id]))
    && w.dispatched <= next.dispatched
    && w.turn.revision <= next.turn.revision
  }

  lemma CommitLeaseLater(w: World, wakeId: string, takenElsewhere: bool)
    requires Inv(w)
    ensures Later(w, CommitLease(w, wakeId, takenElsewhere))
  {
    if wakeId in w.wakes && w.wakes[wakeId].inFlight.Leasing? {
      var lease := w.wakes[wakeId].inFlight;
      var id := IdOf(w.turnId, lease.name);
      if LeaseGranted(w.turn, w.ops, w.wakes[wakeId], id, lease.operation, takenElsewhere) {
        GrantedIsFresh(w, wakeId, takenElsewhere);
      }
    }
  }

  lemma EvolvedIsLater(w: World, next: World)
    requires OpsEvolve(w.ops, next.ops) && next.turnId == w.turnId && next.dispatched == w.dispatched
    requires w.turn.revision <= next.turn.revision
    ensures Later(w, next)
  {
  }

  lemma CommitCompleteLater(w: World, wakeId: string, refused: bool)
    requires Inv(w)
    ensures Later(w, CommitComplete(w, wakeId, refused))
  {
    CompletionEvolves(w, wakeId, refused);
    EvolvedIsLater(w, CommitComplete(w, wakeId, refused));
  }

  lemma HandOverLater(w: World, wakeId: string)
    requires RecordsInv(w.ops)
    ensures Later(w, HandOver(w, wakeId))
  {
  }

  /** Most steps leave the ledger and the dispatches alone. */
  predicate Quiet(step: Step) {
    && !step.CommitLeaseStep? && !step.HandOverStep? && !step.CommitCompleteStep?
    && !step.HydrateStep? && !step.ResolveStep?
  }

  lemma QuietStep(w: World, step: Step)
    requires Quiet(step)
    ensures Take(w, step).turnId == w.turnId && Take(w, step).ops == w.ops && Take(w, step).dispatched == w.dispatched
    ensures w.turn.revision <= Take(w, step).turn.revision
  {
  }

  lemma SameLedgerIsLater(w: World, next: World)
    requires RecordsInv(w.ops) && next.turnId == w.turnId && next.ops == w.ops && next.dispatched == w.dispatched
    requires w.turn.revision <= next.turn.revision
    ensures Later(w, next)
  {
  }

  lemma StepIsLater(w: World, step: Step)
    requires Inv(w)
    ensures Later(w, Take(w, step))
  {
    if Quiet(step) {
      QuietStep(w, step);
      SameLedgerIsLater(w, Take(w, step));
    } else {
      match step
      case CommitLeaseStep(wakeId, takenElsewhere) => CommitLeaseLater(w, wakeId, takenElsewhere);
      case HandOverStep(wakeId) => HandOverLater(w, wakeId);
      case CommitCompleteStep(wakeId, refused) => CommitCompleteLater(w, wakeId, refused);
      case HydrateStep =>
        HydrationEvolves(w);
        HydrationFrame(w);
        EvolvedIsLater(w, Hydrate(w));
      case ResolveStep(resolution) =>
        ResolutionEvolves(w, resolution);
        ResolutionFrame(w, resolution);
        EvolvedIsLater(w, Resolve(w, resolution));
    }
  }

  lemma LaterTransitive(u: World, v: World, w: World)
    requires Later(u, v) && Later(v, w)
    ensures Later(u, w)
  {
    forall id <- u.ops ensures id in w.ops && Evolves(u.ops[id], w.ops[id]) {
      assert Evolves(u.ops[id], v.ops[id]) && Evolves(v.ops[id], w.ops[id]);
    }
  }

  lemma LaterReflexive(w: World)
    requires RecordsInv(w.ops)
    ensures Later(w, w)
  {
  }

  lemma {:induction false} RunIsLater(w: World, steps: seq<Step>)
    requires Inv(w)
    ensures Later(w, Run(w, steps))
  {
    if steps == [] {
      LaterReflexive(w);
    } else {
      var mid := Run(w, steps[..|steps| - 1]);
      RunIsLater(w, steps[..|steps| - 1]);
      RunKeeps(w, steps[..|steps| - 1]);
      StepIsLater(mid, steps[|steps| - 1]);
      LaterTransitive(w, mid, Run(w, steps));
    }
  }

  // Main results

  /** A recorded result and a given-up attempt are final, through restarts, retries and operators. */
  lemma SettledOperationsAreFinal(w: World, steps: seq<Step>, id: string)
    requires Inv(w) && id in w.ops
    requires w.ops[id].phase == Done || w.ops[id].phase == DoneAfterCancel || w.ops[id].phase == Superseded
    ensures id in Run(w, steps).ops && Run(w, steps).ops[id] == w.ops[id]
  {
    RunIsLater(w, steps);
    assert Evolves(w.ops[id], Run(w, steps).ops[id]);
  }

  /** Whatever a provider was ever given for an operation is what the ledger records for it. */
  lemma DeliveriesAgreeWithLedger(turnId: string, continuation: string, revision: nat, steps: seq<Step>, i: nat)
    requires i < |Run(NewWorld(turnId, continuation, revision), steps).delivered|
    ensures var w := Run(NewWorld(turnId, continuation, revision), steps);
            var d := w.delivered[i];
            && d.operationId in w.ops && w.ops[d.operationId].phase == Done
            && w.ops[d.operationId].payload.Some? && w.ops[d.operationId].payload.value.body == d.payload.body
  {
    EveryRunIsSafe(turnId, continuation, revision, steps);
    var w := Run(NewWorld(turnId, continuation, revision), steps);
    assert DeliveryOk(w.ops, w.delivered[i]);
  }

  /** Only an operator's confirmation that the tool did not complete opens a slot for a retry. */
  lemma OnlyAnOperatorGivesUp(w: World, step: Step, id: string)
    requires Inv(w) && id in Take(w, step).ops && Take(w, step).ops[id].phase == Superseded
    requires id in w.ops ==> w.ops[id].phase != Superseded
    ensures step == ResolveStep(ConfirmNotCompleted) && id in w.ops && w.ops[id].phase == OutcomeUnknown
  {
    if Quiet(step) {
      QuietStep(w, step);
    } else {
      match step
      case CommitLeaseStep(wakeId, takenElsewhere) => LeasingGivesNothingUp(w, wakeId, takenElsewhere, id);
      case HandOverStep(_) =>
      case CommitCompleteStep(wakeId, refused) => CompletingGivesNothingUp(w, wakeId, refused, id);
      case HydrateStep => RestartGivesNothingUp(w, id);
      case ResolveStep(resolution) => ResolvingGivesUp(w, resolution, id);
    }
  }

  lemma LeasingGivesNothingUp(w: World, wakeId: string, takenElsewhere: bool, id: string)
    requires Inv(w) && (id in w.ops ==> w.ops[id].phase != Superseded)
    ensures var ops' := CommitLease(w, wakeId, takenElsewhere).ops;
            id in ops' ==> ops'[id].phase != Superseded
  {
    if wakeId in w.wakes {
      assert WakeOk(w.turnId, w.ops, w.wakes[wakeId]);
    }
  }

  lemma CompletingGivesNothingUp(w: World, wakeId: string, refused: bool, id: string)
    requires id in w.ops ==> w.ops[id].phase != Superseded
    ensures var ops' := CommitComplete(w, wakeId, refused).ops;
            id in ops' ==> ops'[id].phase != Superseded
  {
  }

  lemma RestartGivesNothingUp(w: World, id: string)
    requires id in w.ops ==> w.ops[id].phase != Superseded
    ensures var ops' := Hydrate(w).ops;
            id in ops' ==> ops'[id].phase != Superseded
  {
  }

  lemma ResolvingGivesUp(w: World, resolution: Resolution, id: string)
    requires id in w.ops ==> w.ops[id].phase != Superseded
    requires id in Resolve(w, resolution).ops && Resolve(w, resolution).ops[id].phase == Superseded
    ensures resolution == ConfirmNotCompleted && id in w.ops && w.ops[id].phase == OutcomeUnknown
  {
  }

  /** Restarting a running turn leaves no lease behind, and the turn can go on by itself exactly when
      there was none. */
  lemma RestartSettlesLeases(w: World)
    requires w.turn.phase == Running
    ensures OpsIn(Hydrate(w).ops, Leased) == {}
    ensures Hydrate(w).turn.phase == if OpsIn(w.ops, Leased) == {} then Runnable else AttentionRequired
    ensures forall id <- w.ops ::
              id in Hydrate(w).ops &&
              Hydrate(w).ops[id].phase == if w.ops[id].phase == Leased then OutcomeUnknown else w.ops[id].phase
  {
    forall id <- w.ops
      ensures id in Hydrate(w).ops
      ensures Hydrate(w).ops[id].phase == if w.ops[id].phase == Leased then OutcomeUnknown else w.ops[id].phase
    {
      if OpsIn(w.ops, Leased) == {} {
        assert id !in OpsIn(w.ops, Leased);
      }
    }
  }
}
