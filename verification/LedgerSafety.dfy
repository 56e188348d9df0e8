/** What every transaction on the ledger keeps: every attempt is handed over at most once, a slot's
    attempts form a chain in which all but the last were given up by an operator, and a recorded
    result is final. */
module LedgerSafety {
  import opened Wrappers
  import opened Text
  import opened OperationIds
  import opened OperationLedger

  // Invariants

  predicate RecordOk(o: Operation) {
    && o.revision >= 1
    && (o.phase == Leased <==> o.revision == 1)
    && (o.payload.Some? <==> o.phase == Done || o.phase == DoneAfterCancel)
  }

  ghost predicate RecordsInv(ops: Ledger) {
    forall id <- ops :: RecordOk(ops[id])
  }

  predicate Named(turnId: string, id: string, name: Name, continuation: string) {
    id == IdOf(turnId, name) && name.attempt <= U64_MAX && name.continuation == continuation
  }

  ghost predicate NamesInv(turnId: string, ops: Ledger, names: map<string, Name>) {
    && names.Keys == ops.Keys
    && forall id <- names :: Named(turnId, id, names[id], ops[id].continuation)
  }

  /** The attempt before this one, if any, was given up and asked for the same thing. */
  predicate FollowsGivenUp(turnId: string, ops: Ledger, name: Name, fingerprint: string) {
    name.attempt > 0 ==>
      var previous := IdOf(turnId, name.(attempt := name.attempt - 1));
      previous in ops && ops[previous].phase == Superseded && ops[previous].fingerprint == fingerprint
  }

  ghost predicate ChainInv(turnId: string, ops: Ledger, names: map<string, Name>)
    requires names.Keys == ops.Keys
  {
    forall id <- names :: FollowsGivenUp(turnId, ops, names[id], ops[id].fingerprint)
  }

  /** Nothing stored under the name could be mistaken for a lease this wake is asking for. */
  predicate NotMine(ops: Ledger, id: string, generation: nat) {
    id in ops ==> ops[id].revision != 1 || ops[id].leaseGeneration != generation
  }

  predicate WakeOk(turnId: string, ops: Ledger, wake: Wake) {
    match wake.inFlight
    case Idle => true
    case Leasing(_, name, o) =>
      && name.attempt <= U64_MAX && name.continuation == o.continuation
      && o.phase == Leased && o.revision == 1 && o.payload.None?
      && o.leaseGeneration == wake.claimGeneration && o.epoch == wake.epoch
      && FollowsGivenUp(turnId, ops, name, o.fingerprint)
      && NotMine(ops, IdOf(turnId, name), wake.claimGeneration)
    case Completing(_, id, observed, _) =>
      && id in ops && observed.phase == Leased && observed.revision == 1
      && (ops[id].revision == 1 ==> ops[id] == observed)
  }

  ghost predicate WakesInv(turnId: string, ops: Ledger, wakes: map<string, Wake>) {
    forall k <- wakes :: WakeOk(turnId, ops, wakes[k])
  }

  /** A wake's copy of the turn is current exactly while the revisions agree. */
  predicate ClaimOk(turn: Turn, wake: Wake) {
    && wake.claimGeneration <= turn.claimGeneration
    && wake.revision <= turn.revision
    && (wake.revision == turn.revision ==> FenceHolds(turn, wake, wake.epoch))
  }

  ghost predicate ClaimsInv(turn: Turn, wakes: map<string, Wake>) {
    && (forall k <- wakes :: ClaimOk(turn, wakes[k]))
    && (forall k <- wakes, l <- wakes :: k != l ==> wakes[k].claimGeneration != wakes[l].claimGeneration)
    && (turn.epoch.Some? ==> turn.epoch.value.revision < turn.revision)
  }

  predicate Distinct(ids: seq<string>) {
    forall i, j :: 0 <= i < j < |ids| ==> ids[i] != ids[j]
  }

  /** Only stored operations are handed over, each at most once. */
  ghost predicate DispatchInv(ops: Ledger, dispatched: seq<string>) {
    Distinct(dispatched) && forall id <- dispatched :: id in ops
  }

  predicate GrantOk(ops: Ledger, dispatched: seq<string>, granted: seq<string>) {
    Distinct(granted) && forall id <- granted :: id in ops && id !in dispatched
  }

  /** What waits to be handed over is stored, has not been handed over, and waits in one place. */
  ghost predicate GrantsInv(ops: Ledger, dispatched: seq<string>, wakes: map<string, Wake>) {
    && (forall k <- wakes :: GrantOk(ops, dispatched, wakes[k].granted))
    && (forall k <- wakes, l <- wakes :: k != l ==> forall id <- wakes[k].granted :: id !in wakes[l].granted)
  }

  predicate DeliveryOk(ops: Ledger, d: Delivery) {
    && d.operationId in ops && ops[d.operationId].phase == Done
    && ops[d.operationId].payload.Some? && ops[d.operationId].payload.value.body == d.payload.body
  }

  ghost predicate DeliveryInv(ops: Ledger, delivered: seq<Delivery>) {
    forall d <- delivered :: DeliveryOk(ops, d)
  }

  ghost predicate LedgerInv(turnId: string, ops: Ledger, names: map<string, Name>, dispatched: seq<string>,
                            delivered: seq<Delivery>) {
    && RecordsInv(ops)
    && NamesInv(turnId, ops, names)
    && ChainInv(turnId, ops, names)
    && DispatchInv(ops, dispatched)
    && DeliveryInv(ops, delivered)
  }

  ghost predicate Inv(w: World) {
    && LedgerInv(w.turnId, w.ops, w.names, w.dispatched, w.delivered)
    && WakesInv(w.turnId, w.ops, w.wakes)
    && ClaimsInv(w.turn, w.wakes)
    && GrantsInv(w.ops, w.dispatched, w.wakes)
  }

  // How stored operations may change

  /** An operation changes only while its outcome is open, and never back to a fresh lease. */
  predicate Evolves(o: Operation, n: Operation) {
    && RecordOk(n)
    && n.continuation == o.continuation && n.fingerprint == o.fingerprint
    && (n != o ==> n.revision > 1 && (o.phase == Leased || o.phase == OutcomeUnknown))
  }

  ghost predicate OpsEvolve(ops: Ledger, ops': Ledger) {
    ops'.Keys == ops.Keys && forall id <- ops :: Evolves(ops[id], ops'[id])
  }

  lemma EvolvingKeepsChain(turnId: string, ops: Ledger, ops': Ledger, names: map<string, Name>)
    requires NamesInv(turnId, ops, names) && ChainInv(turnId, ops, names) && OpsEvolve(ops, ops')
    ensures NamesInv(turnId, ops', names) && ChainInv(turnId, ops', names)
  {
    forall id <- names ensures FollowsGivenUp(turnId, ops', names[id], ops'[id].fingerprint) {
      EvolvedStillFollows(turnId, ops, ops', names[id], ops[id].fingerprint);
      assert Evolves(ops[id], ops'[id]);
    }
    forall id <- names ensures Named(turnId, id, names[id], ops'[id].continuation) {
      assert Evolves(ops[id], ops'[id]);
    }
  }

  lemma EvolvedStillFollows(turnId: string, ops: Ledger, ops': Ledger, name: Name, fingerprint: string)
    requires FollowsGivenUp(turnId, ops, name, fingerprint) && OpsEvolve(ops, ops')
    ensures FollowsGivenUp(turnId, ops', name, fingerprint)
  {
  }

  lemma EvolvingKeepsLedger(turnId: string, ops: Ledger, ops': Ledger, names: map<string, Name>,
                            dispatched: seq<string>, delivered: seq<Delivery>)
    requires LedgerInv(turnId, ops, names, dispatched, delivered) && OpsEvolve(ops, ops')
    ensures LedgerInv(turnId, ops', names, dispatched, delivered)
  {
    EvolvingKeepsChain(turnId, ops, ops', names);
    forall d <- delivered ensures DeliveryOk(ops', d) {
      assert DeliveryOk(ops, d);
    }
  }

  lemma EvolvingKeepsWakes(turnId: string, ops: Ledger, ops': Ledger, wakes: map<string, Wake>)
    requires WakesInv(turnId, ops, wakes) && OpsEvolve(ops, ops')
    ensures WakesInv(turnId, ops', wakes)
  {
    forall k <- wakes ensures WakeOk(turnId, ops', wakes[k]) {
      assert WakeOk(turnId, ops, wakes[k]);
    }
  }

  lemma EvolvingKeepsGrants(ops: Ledger, ops': Ledger, dispatched: seq<string>, wakes: map<string, Wake>)
    requires GrantsInv(ops, dispatched, wakes) && ops'.Keys == ops.Keys
    ensures GrantsInv(ops', dispatched, wakes)
  {
    forall k <- wakes ensures GrantOk(ops', dispatched, wakes[k].granted) {
      assert GrantOk(ops, dispatched, wakes[k].granted);
    }
  }

  lemma OneEvolves(ops: Ledger, id: string, n: Operation)
    requires RecordsInv(ops) && id in ops && Evolves(ops[id], n)
    ensures OpsEvolve(ops, ops[id := n])
  {
  }

  lemma DeliveringKeepsLedger(turnId: string, ops: Ledger, names: map<string, Name>, dispatched: seq<string>,
                              delivered: seq<Delivery>, d: Delivery)
    requires LedgerInv(turnId, ops, names, dispatched, delivered) && DeliveryOk(ops, d)
    ensures LedgerInv(turnId, ops, names, dispatched, delivered + [d])
  {
  }

  // How wakes may change

  predicate SameClaim(a: Wake, b: Wake) {
    && a.revision == b.revision && a.epoch == b.epoch
    && a.claimGeneration == b.claimGeneration && a.cancellationGeneration == b.cancellationGeneration
  }

  lemma UpdatingWake(turnId: string, turn: Turn, ops: Ledger, wakes: map<string, Wake>, k: string, wake: Wake)
    requires WakesInv(turnId, ops, wakes) && ClaimsInv(turn, wakes)
    requires k in wakes && SameClaim(wakes[k], wake) && WakeOk(turnId, ops, wake)
    ensures WakesInv(turnId, ops, wakes[k := wake]) && ClaimsInv(turn, wakes[k := wake])
  {
    assert ClaimOk(turn, wakes[k]);
  }

  /** Keeping or dropping a wake's grants. */
  lemma UpdatingGrants(ops: Ledger, dispatched: seq<string>, wakes: map<string, Wake>, k: string, wake: Wake)
    requires GrantsInv(ops, dispatched, wakes) && k in wakes && (wake.granted == wakes[k].granted || wake.granted == [])
    ensures GrantsInv(ops, dispatched, wakes[k := wake])
  {
  }

  lemma UpdatedWorld(w: World, next: World, k: string, wake: Wake)
    requires Inv(w) && k in w.wakes && SameClaim(w.wakes[k], wake) && WakeOk(w.turnId, w.ops, wake)
    requires wake.granted == w.wakes[k].granted || wake.granted == []
    requires next == w.(wakes := w.wakes[k := wake])
    ensures Inv(next)
  {
    UpdatingWake(w.turnId, w.turn, w.ops, w.wakes, k, wake);
    UpdatingGrants(w.ops, w.dispatched, w.wakes, k, wake);
  }

  lemma RemovingWake(turnId: string, turn: Turn, ops: Ledger, dispatched: seq<string>, wakes: map<string, Wake>,
                     k: string)
    requires WakesInv(turnId, ops, wakes) && ClaimsInv(turn, wakes) && GrantsInv(ops, dispatched, wakes)
    ensures WakesInv(turnId, ops, wakes - {k}) && ClaimsInv(turn, wakes - {k})
            && GrantsInv(ops, dispatched, wakes - {k})
  {
  }

  /** The turn moves on: every copy of it is outdated. */
  lemma MovingOn(turn: Turn, turn': Turn, wakes: map<string, Wake>)
    requires ClaimsInv(turn, wakes) && turn'.revision > turn.revision && turn'.claimGeneration == turn.claimGeneration
    requires turn'.epoch == turn.epoch || turn'.epoch == None
    ensures ClaimsInv(turn', wakes)
  {
    forall k <- wakes ensures ClaimOk(turn', wakes[k]) {
      assert ClaimOk(turn, wakes[k]);
    }
  }

  // Turn-only steps

  lemma AddingWake(turnId: string, turn: Turn, turn': Turn, ops: Ledger, wakes: map<string, Wake>, k: string,
                   wake: Wake)
    requires WakesInv(turnId, ops, wakes) && ClaimsInv(turn, wakes) && k !in wakes
    requires wake.inFlight == Idle && wake.claimGeneration == turn'.claimGeneration == turn.claimGeneration + 1
    requires wake.revision == turn'.revision > turn.revision && FenceHolds(turn', wake, wake.epoch)
    requires turn'.epoch.Some? ==> turn'.epoch.value.revision < turn'.revision
    ensures WakesInv(turnId, ops, wakes[k := wake]) && ClaimsInv(turn', wakes[k := wake])
  {
    forall l <- wakes ensures ClaimOk(turn', wakes[l]) && wakes[l].claimGeneration != wake.claimGeneration {
      assert ClaimOk(turn, wakes[l]);
    }
  }

  /** No claim is ever a replay of the active one: the epoch is made from the turn's revision. */
  lemma ClaimIsNotAReplay(w: World, service: string)
    requires ClaimsInv(w.turn, w.wakes)
    ensures w.turn.epoch != Some(Epoch(w.turn.continuation, w.turn.revision, service))
  {
  }

  lemma AddingGrants(ops: Ledger, dispatched: seq<string>, wakes: map<string, Wake>, k: string, wake: Wake)
    requires GrantsInv(ops, dispatched, wakes) && k !in wakes && wake.granted == []
    ensures GrantsInv(ops, dispatched, wakes[k := wake])
  {
  }

  lemma ClaimKeeps(w: World, wakeId: string, service: string)
    requires Inv(w)
    ensures Inv(Claim(w, wakeId, service))
  {
    var next := Claim(w, wakeId, service);
    ClaimIsNotAReplay(w, service);
    if next != w {
      AddingWake(w.turnId, w.turn, next.turn, w.ops, w.wakes, wakeId, next.wakes[wakeId]);
      AddingGrants(w.ops, w.dispatched, w.wakes, wakeId, next.wakes[wakeId]);
      assert next == w.(turn := next.turn, wakes := next.wakes);
    }
  }

  lemma SettleKeeps(w: World, wakeId: string, settlement: Settlement)
    requires Inv(w)
    ensures Inv(Settle(w, wakeId, settlement))
  {
    var next := Settle(w, wakeId, settlement);
    if next != w {
      RemovingWake(w.turnId, w.turn, w.ops, w.dispatched, w.wakes, wakeId);
      if next.turn != w.turn {
        MovingOn(w.turn, next.turn, next.wakes);
      }
    }
  }

  lemma CancelKeeps(w: World)
    requires Inv(w)
    ensures Inv(Cancel(w))
  {
    var next := Cancel(w);
    if next != w {
      MovingOn(w.turn, next.turn, w.wakes);
    }
  }

  // Leasing

  /** Under the invariant, the latest stored attempt of a slot is what its name says. */
  lemma LatestIsTheLatest(turnId: string, ops: Ledger, names: map<string, Name>, c: string, slot: nat)
    requires NamesInv(turnId, ops, names)
    ensures forall a: nat | a <= U64_MAX && IdOf(turnId, Name(c, slot, a)) in ops ::
              var latest := Latest(ops, SlotId(turnId, c, slot));
              latest.Some? && a <= latest.value.0
    ensures var latest := Latest(ops, SlotId(turnId, c, slot));
            latest.Some? ==> latest.value.0 <= U64_MAX && latest.value.1 == IdOf(turnId, Name(c, slot, latest.value.0))
  {
    var slotId := SlotId(turnId, c, slot);
    var latest := Latest(ops, slotId);
    forall a: nat | a <= U64_MAX && IdOf(turnId, Name(c, slot, a)) in ops
      ensures latest.Some? && a <= latest.value.0
    {
      AttemptOfAttemptId(slotId, a);
      assert a in AttemptsIn(ops, slotId);
    }
    if latest.Some? {
      var name := names[latest.value.1];
      assert Named(turnId, latest.value.1, name, ops[latest.value.1].continuation);
      AttemptsAreReadBackExactly(turnId, c, slot, name.continuation, name.slot, name.attempt);
    }
  }

  lemma PlannedLeaseIsOk(w: World, wake: Wake, fingerprint: string)
    requires RecordsInv(w.ops) && NamesInv(w.turnId, w.ops, w.names) && ChainInv(w.turnId, w.ops, w.names)
    requires PlanFor(w.ops, SlotId(w.turnId, wake.continuation, wake.nextSlot), fingerprint).Lease?
    ensures var plan := PlanFor(w.ops, SlotId(w.turnId, wake.continuation, wake.nextSlot), fingerprint);
            var name := Name(wake.continuation, wake.nextSlot, plan.attempt);
            && plan.attempt <= U64_MAX
            && FollowsGivenUp(w.turnId, w.ops, name, fingerprint)
            && NotMine(w.ops, IdOf(w.turnId, name), wake.claimGeneration)
  {
    LatestIsTheLatest(w.turnId, w.ops, w.names, wake.continuation, wake.nextSlot);
    var latest := Latest(w.ops, SlotId(w.turnId, wake.continuation, wake.nextSlot));
    if latest.Some? {
      var (attempt, id) := latest.value;
      RetryIsOk(w, wake, fingerprint, attempt, id);
    }
  }

  lemma RetryIsOk(w: World, wake: Wake, fingerprint: string, attempt: nat, id: string)
    requires RecordsInv(w.ops) && NamesInv(w.turnId, w.ops, w.names) && ChainInv(w.turnId, w.ops, w.names)
    requires attempt <= U64_MAX && id in w.ops && id == IdOf(w.turnId, Name(wake.continuation, wake.nextSlot, attempt))
    requires w.ops[id].phase == Superseded && w.ops[id].fingerprint == fingerprint
    requires forall a: nat | a <= U64_MAX && IdOf(w.turnId, Name(wake.continuation, wake.nextSlot, a)) in w.ops ::
               a <= attempt
    ensures var name := Name(wake.continuation, wake.nextSlot, Min(attempt + 1, U64_MAX));
            && FollowsGivenUp(w.turnId, w.ops, name, fingerprint)
            && NotMine(w.ops, IdOf(w.turnId, name), wake.claimGeneration)
  {
    var name := Name(wake.continuation, wake.nextSlot, attempt);
    assert RecordOk(w.ops[id]);
    if attempt == U64_MAX {
      assert Named(w.turnId, id, w.names[id], w.ops[id].continuation);
      SameId(w.turnId, w.names, id, name);
      assert FollowsGivenUp(w.turnId, w.ops, w.names[id], w.ops[id].fingerprint);
    } else {
      var next := name.(attempt := attempt + 1);
      assert next.(attempt := next.attempt - 1) == name;
    }
  }

  /** A name is recoverable from its identifier. */
  lemma SameId(turnId: string, names: map<string, Name>, id: string, name: Name)
    requires id in names && names[id].attempt <= U64_MAX && name.attempt <= U64_MAX
    requires id == IdOf(turnId, names[id]) == IdOf(turnId, name)
    ensures names[id] == name
  {
    var other := names[id];
    AttemptOfAttemptId(SlotId(turnId, name.continuation, name.slot), name.attempt);
    AttemptsAreReadBackExactly(turnId, name.continuation, name.slot, other.continuation, other.slot, other.attempt);
  }

  lemma PlannedWakeIsOk(w: World, wake: Wake, plan: Plan, callId: string, fingerprint: string, now: nat, refused: bool)
    requires RecordsInv(w.ops) && NamesInv(w.turnId, w.ops, w.names) && ChainInv(w.turnId, w.ops, w.names)
             && wake.inFlight.Idle?
    requires plan == PlanFor(w.ops, SlotId(w.turnId, wake.continuation, wake.nextSlot), fingerprint)
    ensures WakeOk(w.turnId, w.ops, WakeAfterPlan(wake, plan, callId, fingerprint, now, refused))
  {
    if plan.Lease? {
      PlannedLeaseIsOk(w, wake, fingerprint);
    }
  }

  lemma PlannedReplayIsOk(ops: Ledger, slotId: string, fingerprint: string)
    requires PlanFor(ops, slotId, fingerprint).Replay?
    ensures var plan := PlanFor(ops, slotId, fingerprint);
            && plan.operationId in ops && ops[plan.operationId].phase == Done
            && ops[plan.operationId].payload == Some(plan.payload)
  {
  }

  lemma PrepareKeeps(w: World, wakeId: string, callId: string, fingerprint: string, now: nat, refused: bool)
    requires Inv(w)
    ensures Inv(Prepare(w, wakeId, callId, fingerprint, now, refused))
  {
    if wakeId in w.wakes && w.wakes[wakeId].inFlight.Idle? {
      var wake := w.wakes[wakeId];
      var slotId := SlotId(w.turnId, wake.continuation, wake.nextSlot);
      var plan := PlanFor(w.ops, slotId, fingerprint);
      var wake' := WakeAfterPlan(wake, plan, callId, fingerprint, now, refused);
      PlannedWakeIsOk(w, wake, plan, callId, fingerprint, now, refused);
      UpdatedWorld(w, w.(wakes := w.wakes[wakeId := wake']), wakeId, wake');
      if plan.Replay? {
        PlannedReplayIsOk(w.ops, slotId, fingerprint);
        var payload := plan.payload.(wakeId := Some(wakeId), callId := Some(callId));
        DeliveringKeepsLedger(w.turnId, w.ops, w.names, w.dispatched, w.delivered, Delivery(plan.operationId, payload));
      }
    }
  }

  /** A granted lease is always for a name the ledger did not have. */
  lemma GrantedIsFresh(w: World, wakeId: string, takenElsewhere: bool)
    requires Inv(w) && wakeId in w.wakes && w.wakes[wakeId].inFlight.Leasing?
    requires var lease := w.wakes[wakeId].inFlight;
             LeaseGranted(w.turn, w.ops, w.wakes[wakeId], IdOf(w.turnId, lease.name), lease.operation, takenElsewhere)
    ensures IdOf(w.turnId, w.wakes[wakeId].inFlight.name) !in w.ops
  {
    assert WakeOk(w.turnId, w.ops, w.wakes[wakeId]);
  }

  lemma InsertingKeepsChain(turnId: string, ops: Ledger, names: map<string, Name>, id: string, name: Name, o: Operation)
    requires NamesInv(turnId, ops, names) && ChainInv(turnId, ops, names)
    requires id !in ops && FollowsGivenUp(turnId, ops, name, o.fingerprint)
    ensures names[id := name].Keys == ops[id := o].Keys && ChainInv(turnId, ops[id := o], names[id := name])
  {
    var ops', names' := ops[id := o], names[id := name];
    forall k <- names' ensures FollowsGivenUp(turnId, ops', names'[k], ops'[k].fingerprint) {
      if k != id {
        StillFollows(turnId, ops, names[k], ops[k].fingerprint, id, o);
      } else {
        StillFollows(turnId, ops, name, o.fingerprint, id, o);
      }
    }
  }

  lemma StillFollows(turnId: string, ops: Ledger, name: Name, fingerprint: string, id: string, o: Operation)
    requires FollowsGivenUp(turnId, ops, name, fingerprint) && id !in ops
    ensures FollowsGivenUp(turnId, ops[id := o], name, fingerprint)
  {
  }

  lemma InsertingKeepsLogs(ops: Ledger, dispatched: seq<string>, delivered: seq<Delivery>, id: string, o: Operation)
    requires DispatchInv(ops, dispatched) && DeliveryInv(ops, delivered) && id !in ops
    ensures DispatchInv(ops[id := o], dispatched) && DeliveryInv(ops[id := o], delivered)
  {
    forall d <- delivered ensures DeliveryOk(ops[id := o], d) {
      assert DeliveryOk(ops, d);
    }
  }

  lemma InsertingKeepsLedger(turnId: string, ops: Ledger, names: map<string, Name>, dispatched: seq<string>,
                             delivered: seq<Delivery>, id: string, name: Name, o: Operation)
    requires LedgerInv(turnId, ops, names, dispatched, delivered)
    requires id !in ops && Named(turnId, id, name, o.continuation) && RecordOk(o)
    requires FollowsGivenUp(turnId, ops, name, o.fingerprint)
    ensures LedgerInv(turnId, ops[id := o], names[id := name], dispatched, delivered)
  {
    InsertingKeepsChain(turnId, ops, names, id, name, o);
    InsertingKeepsLogs(ops, dispatched, delivered, id, o);
  }

  lemma InsertingKeepsWakes(turnId: string, ops: Ledger, wakes: map<string, Wake>, id: string, o: Operation)
    requires WakesInv(turnId, ops, wakes) && id !in ops
    requires forall k <- wakes :: !wakes[k].inFlight.Leasing? || wakes[k].claimGeneration != o.leaseGeneration
    ensures WakesInv(turnId, ops[id := o], wakes)
  {
    forall k <- wakes ensures WakeOk(turnId, ops[id := o], wakes[k]) {
      assert WakeOk(turnId, ops, wakes[k]);
    }
  }

  lemma GrantingKeepsGrants(ops: Ledger, dispatched: seq<string>, wakes: map<string, Wake>, k: string, wake: Wake,
                            id: string, o: Operation)
    requires GrantsInv(ops, dispatched, wakes) && DispatchInv(ops, dispatched) && k in wakes && id !in ops
    requires wake.granted == wakes[k].granted + [id]
    ensures GrantsInv(ops[id := o], dispatched, wakes[k := wake])
  {
    var ops', wakes' := ops[id := o], wakes[k := wake];
    forall l <- wakes' ensures GrantOk(ops', dispatched, wakes'[l].granted) {
      assert GrantOk(ops, dispatched, wakes[l].granted);
    }
    forall l <- wakes, m <- wakes | l != m ensures forall x <- wakes'[l].granted :: x !in wakes'[m].granted {
      assert GrantOk(ops, dispatched, wakes[l].granted) && GrantOk(ops, dispatched, wakes[m].granted);
    }
  }

  lemma CommitLeaseKeeps(w: World, wakeId: string, takenElsewhere: bool)
    requires Inv(w)
    ensures Inv(CommitLease(w, wakeId, takenElsewhere))
  {
    if wakeId in w.wakes && w.wakes[wakeId].inFlight.Leasing? {
      var wake := w.wakes[wakeId];
      var lease := wake.inFlight;
      var id := IdOf(w.turnId, lease.name);
      assert WakeOk(w.turnId, w.ops, wake);
      if LeaseGranted(w.turn, w.ops, wake, id, lease.operation, takenElsewhere) {
        GrantedIsFresh(w, wakeId, takenElsewhere);
        var wake' := LeasedWake(wake, lease.callId, id);
        UpdatingWake(w.turnId, w.turn, w.ops, w.wakes, wakeId, wake');
        InsertingKeepsWakes(w.turnId, w.ops, w.wakes[wakeId := wake'], id, lease.operation);
        InsertingKeepsLedger(w.turnId, w.ops, w.names, w.dispatched, w.delivered, id, lease.name, lease.operation);
        GrantingKeepsGrants(w.ops, w.dispatched, w.wakes, wakeId, wake', id, lease.operation);
      } else {
        UpdatedWorld(w, CommitLease(w, wakeId, takenElsewhere), wakeId, wake.(inFlight := Idle, granted := []));
      }
    }
  }

  lemma DistinctConcat(a: seq<string>, b: seq<string>)
    requires Distinct(a) && Distinct(b) && forall x <- b :: x !in a
    ensures Distinct(a + b)
  {
    forall i, j | 0 <= i < j < |a + b| ensures (a + b)[i] != (a + b)[j] {
      if i < |a| <= j {
        assert b[j - |a|] in b;
      }
    }
  }

  /** Handing over moves a wake's grants to the dispatched operations. */
  lemma HandingOverKeepsGrants(ops: Ledger, dispatched: seq<string>, wakes: map<string, Wake>, k: string, wake: Wake)
    requires DispatchInv(ops, dispatched) && GrantsInv(ops, dispatched, wakes) && k in wakes && wake.granted == []
    ensures DispatchInv(ops, dispatched + wakes[k].granted)
    ensures GrantsInv(ops, dispatched + wakes[k].granted, wakes[k := wake])
  {
    var granted := wakes[k].granted;
    assert GrantOk(ops, dispatched, granted);
    DistinctConcat(dispatched, granted);
    forall l <- wakes | l != k ensures GrantOk(ops, dispatched + granted, wakes[l].granted) {
      assert GrantOk(ops, dispatched, wakes[l].granted);
    }
  }

  lemma AbortKeeps(w: World, wakeId: string, slotTaken: bool)
    requires Inv(w)
    ensures Inv(AbortDrain(w, wakeId, slotTaken))
  {
    if wakeId in w.wakes && w.wakes[wakeId].inFlight.Idle? {
      var next := AbortDrain(w, wakeId, slotTaken);
      UpdatedWorld(w, next, wakeId, next.wakes[wakeId]);
    }
  }

  lemma HandOverKeeps(w: World, wakeId: string)
    requires Inv(w)
    ensures Inv(HandOver(w, wakeId))
  {
    if wakeId in w.wakes && w.wakes[wakeId].inFlight.Idle? {
      var wake' := w.wakes[wakeId].(granted := []);
      HandingOverKeepsGrants(w.ops, w.dispatched, w.wakes, wakeId, wake');
      UpdatingWake(w.turnId, w.turn, w.ops, w.wakes, wakeId, wake');
    }
  }

  // Completing

  lemma BeginCompleteKeeps(w: World, wakeId: string, callId: string, text: string, refused: bool)
    requires Inv(w)
    ensures Inv(BeginComplete(w, wakeId, callId, text, refused))
  {
    if wakeId in w.wakes && w.wakes[wakeId].inFlight.Idle? {
      var wake := w.wakes[wakeId];
      if callId in wake.callOperations && wake.callOperations[callId] in w.ops {
        var id := wake.callOperations[callId];
        var payload := Payload(Some(wakeId), Some(callId), FromHost(text));
        assert RecordOk(w.ops[id]);
        if w.ops[id].phase == Leased {
          var wake' := wake.(inFlight := Completing(callId, id, w.ops[id], payload));
          UpdatedWorld(w, w.(wakes := w.wakes[wakeId := wake']), wakeId, wake');
        } else if w.ops[id].phase == Done && w.ops[id].payload == Some(payload) {
          DeliveringKeepsLedger(w.turnId, w.ops, w.names, w.dispatched, w.delivered, Delivery(id, payload));
        }
      }
    }
  }

  lemma CompletionEvolves(w: World, wakeId: string, refused: bool)
    requires RecordsInv(w.ops) && (wakeId in w.wakes ==> WakeOk(w.turnId, w.ops, w.wakes[wakeId]))
    ensures OpsEvolve(w.ops, CommitComplete(w, wakeId, refused).ops)
  {
    var ops' := CommitComplete(w, wakeId, refused).ops;
    if ops' != w.ops {
      var id := w.wakes[wakeId].inFlight.operationId;
      assert RecordOk(w.ops[id]);
      OneEvolves(w.ops, id, ops'[id]);
    }
  }

  /** The completion's own wake is idle again; nothing else about the wakes changes. */
  lemma CompletionFrame(w: World, wakeId: string, refused: bool)
    requires wakeId in w.wakes && w.wakes[wakeId].inFlight.Completing?
    ensures var next := CommitComplete(w, wakeId, refused);
            && next == w.(ops := next.ops, delivered := next.delivered,
                          wakes := w.wakes[wakeId := w.wakes[wakeId].(inFlight := Idle)])
  {
  }

  lemma CompletionDelivers(w: World, wakeId: string, refused: bool)
    requires wakeId in w.wakes && w.wakes[wakeId].inFlight.Completing?
    ensures var next := CommitComplete(w, wakeId, refused);
            next.delivered == w.delivered ||
            exists d :: next.delivered == w.delivered + [d] && DeliveryOk(next.ops, d)
  {
    var next := CommitComplete(w, wakeId, refused);
    if next.delivered != w.delivered {
      var c := w.wakes[wakeId].inFlight;
      var d := Delivery(c.operationId, c.payload);
      assert next.delivered == w.delivered + [d] && DeliveryOk(next.ops, d);
    }
  }

  lemma CommitCompleteKeeps(w: World, wakeId: string, refused: bool)
    requires Inv(w)
    ensures Inv(CommitComplete(w, wakeId, refused))
  {
    if wakeId in w.wakes && w.wakes[wakeId].inFlight.Completing? {
      var next := CommitComplete(w, wakeId, refused);
      CompletionEvolves(w, wakeId, refused);
      CompletionFrame(w, wakeId, refused);
      CompletionDelivers(w, wakeId, refused);
      var wake' := w.wakes[wakeId].(inFlight := Idle);
      UpdatingWake(w.turnId, w.turn, w.ops, w.wakes, wakeId, wake');
      UpdatingGrants(w.ops, w.dispatched, w.wakes, wakeId, wake');
      EvolvingKeepsGrants(w.ops, next.ops, w.dispatched, next.wakes);
      EvolvingKeepsWakes(w.turnId, w.ops, next.ops, next.wakes);
      EvolvingKeepsLedger(w.turnId, w.ops, next.ops, w.names, w.dispatched, w.delivered);
      if next.delivered != w.delivered {
        var d :| next.delivered == w.delivered + [d] && DeliveryOk(next.ops, d);
        DeliveringKeepsLedger(w.turnId, next.ops, w.names, w.dispatched, w.delivered, d);
      }
    }
  }

  // Restart and resolution

  /** The turn is as it was, or has moved on to a later revision without a new claim. */
  predicate TurnMovesOn(turn: Turn, turn': Turn) {
    turn' == turn ||
    (&& turn'.revision > turn.revision && turn'.claimGeneration == turn.claimGeneration
     && (turn'.epoch == turn.epoch || turn'.epoch == None))
  }

  /** A step that only lets operations evolve and moves the turn on keeps everything. */
  lemma EvolvedWorld(w: World, next: World)
    requires Inv(w) && OpsEvolve(w.ops, next.ops)
    requires next == w.(turn := next.turn, ops := next.ops) && TurnMovesOn(w.turn, next.turn)
    ensures Inv(next)
  {
    if next.turn != w.turn {
      MovingOn(w.turn, next.turn, w.wakes);
    }
    EvolvingKeepsWakes(w.turnId, w.ops, next.ops, w.wakes);
    EvolvingKeepsGrants(w.ops, next.ops, w.dispatched, w.wakes);
    EvolvingKeepsLedger(w.turnId, w.ops, next.ops, w.names, w.dispatched, w.delivered);
  }

  lemma HydrationEvolves(w: World)
    requires RecordsInv(w.ops)
    ensures OpsEvolve(w.ops, Hydrate(w).ops)
  {
    forall id <- w.ops ensures Evolves(w.ops[id], Hydrate(w).ops[id]) {
      assert RecordOk(w.ops[id]);
    }
  }

  lemma HydrationFrame(w: World)
    ensures var next := Hydrate(w);
            next == w.(turn := next.turn, ops := next.ops) && TurnMovesOn(w.turn, next.turn)
  {
  }

  lemma HydrateKeeps(w: World)
    requires Inv(w)
    ensures Inv(Hydrate(w))
  {
    HydrationEvolves(w);
    HydrationFrame(w);
    EvolvedWorld(w, Hydrate(w));
  }

  lemma ResolutionEvolves(w: World, resolution: Resolution)
    requires RecordsInv(w.ops)
    ensures OpsEvolve(w.ops, Resolve(w, resolution).ops)
  {
    var ops' := Resolve(w, resolution).ops;
    if ops' != w.ops {
      var id :| id in OpsIn(w.ops, OutcomeUnknown) && ops' == w.ops[id := ResolvedOperation(w.ops[id], id, resolution)];
      assert RecordOk(w.ops[id]);
      OneEvolves(w.ops, id, ResolvedOperation(w.ops[id], id, resolution));
    }
  }

  lemma ResolutionFrame(w: World, resolution: Resolution)
    ensures var next := Resolve(w, resolution);
            next == w.(turn := next.turn, ops := next.ops) && TurnMovesOn(w.turn, next.turn)
  {
  }

  lemma ResolveKeeps(w: World, resolution: Resolution)
    requires Inv(w)
    ensures Inv(Resolve(w, resolution))
  {
    ResolutionEvolves(w, resolution);
    ResolutionFrame(w, resolution);
    EvolvedWorld(w, Resolve(w, resolution));
  }

  lemma StepKeeps(w: World, step: Step)
    requires Inv(w)
    ensures Inv(Take(w, step))
  {
    match step
    case ClaimStep(wakeId, service) => ClaimKeeps(w, wakeId, service);
    case PrepareStep(wakeId, callId, fingerprint, now, refused) =>
      PrepareKeeps(w, wakeId, callId, fingerprint, now, refused);
    case CommitLeaseStep(wakeId, takenElsewhere) => CommitLeaseKeeps(w, wakeId, takenElsewhere);
    case AbortDrainStep(wakeId, slotTaken) => AbortKeeps(w, wakeId, slotTaken);
    case HandOverStep(wakeId) => HandOverKeeps(w, wakeId);
    case BeginCompleteStep(wakeId, callId, text, refused) => BeginCompleteKeeps(w, wakeId, callId, text, refused);
    case CommitCompleteStep(wakeId, refused) => CommitCompleteKeeps(w, wakeId, refused);
    case SettleStep(wakeId, settlement) => SettleKeeps(w, wakeId, settlement);
    case CancelStep => CancelKeeps(w);
    case DropStep(wakeId) => RemovingWake(w.turnId, w.turn, w.ops, w.dispatched, w.wakes, wakeId);
    case HydrateStep => HydrateKeeps(w);
    case ResolveStep(resolution) => ResolveKeeps(w, resolution);
  }
}
