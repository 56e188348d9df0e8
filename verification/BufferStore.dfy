/** The runtime buffer store and its leases as the objects they are.  Every method follows the model
    operation; what is kept beyond that is the tie between lease objects and counts. */
module BufferStore {
  import opened Wrappers
  import opened BufferModel

  ghost function LeasesOn(live: set<RuntimeBufferLease>, handle: nat): set<RuntimeBufferLease> {
    set lease | lease in live && lease.handle == handle
  }

  lemma LeaseAdded(live: set<RuntimeBufferLease>, lease: RuntimeBufferLease, handle: nat)
    requires lease !in live
    ensures |LeasesOn(live + {lease}, handle)| == |LeasesOn(live, handle)| + if lease.handle == handle then 1 else 0
  {
    if lease.handle == handle {
      assert LeasesOn(live + {lease}, handle) == LeasesOn(live, handle) + {lease};
    } else {
      assert LeasesOn(live + {lease}, handle) == LeasesOn(live, handle);
    }
  }

  lemma LeaseRemoved(live: set<RuntimeBufferLease>, lease: RuntimeBufferLease, handle: nat)
    requires lease in live
    ensures |LeasesOn(live - {lease}, handle)| == |LeasesOn(live, handle)| - if lease.handle == handle then 1 else 0
  {
    LeaseAdded(live - {lease}, lease, handle);
    assert live - {lease} + {lease} == live;
  }

  /** The store counts, for every handle, exactly the live lease objects on it. */
  ghost predicate Counted(buffers: map<nat, Entry>, live: set<RuntimeBufferLease>) {
    forall handle: nat :: |LeasesOn(live, handle)| == Count(buffers, handle)
  }

  lemma AcquiringCounts(buffers: map<nat, Entry>, live: set<RuntimeBufferLease>, lease: RuntimeBufferLease,
                        entry: Entry)
    requires Counted(buffers, live) && lease !in live && lease.handle in buffers
    requires entry.leases == buffers[lease.handle].leases + 1
    ensures Counted(buffers[lease.handle := entry], live + {lease})
  {
    forall handle: nat ensures |LeasesOn(live + {lease}, handle)| == Count(buffers[lease.handle := entry], handle) {
      LeaseAdded(live, lease, handle);
      assert |LeasesOn(live, handle)| == Count(buffers, handle);
    }
  }

  lemma ReleasingCounts(buffers: map<nat, Entry>, buffers': map<nat, Entry>, live: set<RuntimeBufferLease>,
                        lease: RuntimeBufferLease)
    requires Counted(buffers, live) && lease in live && lease.handle in buffers
    requires forall handle: nat ::
               Count(buffers', handle) == Count(buffers, handle) - if handle == lease.handle then 1 else 0
    ensures Counted(buffers', live - {lease})
  {
    forall handle: nat ensures |LeasesOn(live - {lease}, handle)| == Count(buffers', handle) {
      LeaseRemoved(live, lease, handle);
      assert |LeasesOn(live, handle)| == Count(buffers, handle);
    }
  }

  /** A live lease is counted, so its entry is there. */
  lemma LiveIsCounted(buffers: map<nat, Entry>, live: set<RuntimeBufferLease>, lease: RuntimeBufferLease)
    requires Counted(buffers, live) && lease in live
    ensures lease.handle in buffers && buffers[lease.handle].leases > 0
  {
    assert lease in LeasesOn(live, lease.handle);
    assert |LeasesOn(live, lease.handle)| == Count(buffers, lease.handle);
  }

  lemma CountedIsLive(buffers: map<nat, Entry>, live: set<RuntimeBufferLease>, handle: nat)
    requires Counted(buffers, live) && handle in buffers && buffers[handle].leases > 0
    ensures exists lease :: lease in live && lease.handle == handle
  {
    assert |LeasesOn(live, handle)| == Count(buffers, handle);
    if LeasesOn(live, handle) == {} {
      assert false;
    }
    var lease :| lease in LeasesOn(live, handle);
  }

  /** An insert keeps the counts exactly when the handle it takes has no live lease. */
  lemma InsertingCountsIff(buffers: map<nat, Entry>, live: set<RuntimeBufferLease>, handle: nat, entry: Entry)
    requires Counted(buffers, live) && entry.leases == 0
    ensures Counted(buffers[handle := entry], live) <==> LeasesOn(live, handle) == {}
  {
    if LeasesOn(live, handle) == {} {
      forall k: nat ensures |LeasesOn(live, k)| == Count(buffers[handle := entry], k) {
        assert |LeasesOn(live, k)| == Count(buffers, k);
      }
    } else {
      assert |LeasesOn(live, handle)| != Count(buffers[handle := entry], handle);
    }
  }

  class RuntimeBufferStore {
    var nextHandle: nat
    var buffers: map<nat, Entry>
    ghost var live: set<RuntimeBufferLease>
    ghost var inserted: map<nat, View>

    function Contents(): Store
      reads this
    {
      Store(nextHandle, buffers)
    }

    /** Every count is the number of live lease objects, and every entry holds what was inserted. */
    ghost predicate Valid()
      reads this, live
    {
      && (forall lease <- live :: lease.store == this && !lease.released)
      && Counted(buffers, live)
      && ContentsAgree(buffers, inserted)
    }

    constructor ()
      ensures Contents() == NewStore() && Valid() && live == {}
    {
      nextHandle := 1;
      buffers := map[];
      live := {};
      inserted := map[];
    }

    method Insert(mediaType: string, bytes: Bytes) returns (r: Result<nat, StoreError>)
      modifies `nextHandle, `buffers, `inserted
      ensures (Contents(), r) == BufferModel.Insert(old(Contents()), mediaType, bytes)
      ensures r.Ok? ==> inserted == old(inserted)[r.value := View(mediaType, bytes)]
      ensures old(Valid()) ==> (Valid() <==> bytes == [] || LeasesOn(live, old(nextHandle)) == {})
    {
      if bytes == [] {
        return Err(EmptyBuffer);
      }
      var handle := nextHandle;
      if Counted(buffers, live) {
        InsertingCountsIff(buffers, live, handle, Entry(mediaType, bytes, 0));
      }
      nextHandle := (nextHandle + 1) % HANDLES;
      buffers := buffers[handle := Entry(mediaType, bytes, 0)];
      inserted := inserted[handle := View(mediaType, bytes)];
      r := Ok(handle);
    }

    /** A granted lease is a new live one; nothing else about live leases changes. */
    method Acquire(handle: nat) returns (r: Result<RuntimeBufferLease, StoreError>)
      modifies `buffers, `live
      ensures var (store, error) := BufferModel.Acquire(old(Contents()), handle);
              Contents() == store && (r.Ok? <==> error.None?) && (r.Err? ==> error == Some(r.error))
      ensures r.Ok? ==> fresh(r.value) && r.value.store == this && r.value.handle == handle && !r.value.released
      ensures live == if r.Ok? then old(live) + {r.value} else old(live)
      ensures old(Valid()) ==> Valid()
    {
      if handle !in buffers {
        return Err(NotFound);
      }
      var entry := buffers[handle];
      if entry.leases == U32_MAX {
        return Err(LeaseOverflow);
      }
      var lease := new RuntimeBufferLease(handle, this);
      if Counted(buffers, live) {
        AcquiringCounts(buffers, live, lease, entry.(leases := entry.leases + 1));
      }
      buffers := buffers[handle := entry.(leases := entry.leases + 1)];
      live := live + {lease};
      r := Ok(lease);
    }

    /** A handle with a live lease always reads back what was inserted under it; one without never does. */
    method GetBuffer(handle: nat) returns (r: Result<View, StoreError>)
      ensures r == BufferModel.GetBuffer(Contents(), handle)
      ensures Valid() ==> (r.Ok? <==> exists lease :: lease in live && lease.handle == handle)
      ensures Valid() && r.Ok? ==> handle in inserted && r.value == inserted[handle]
    {
      if Valid() {
        ReadsIffLeased(handle);
      }
      if handle !in buffers {
        return Err(NotFound);
      }
      var entry := buffers[handle];
      if entry.leases == 0 {
        return Err(NoActiveLease);
      }
      r := Ok(View(entry.mediaType, entry.bytes));
    }

    lemma ReadsIffLeased(handle: nat)
      requires Valid()
      ensures BufferModel.GetBuffer(Contents(), handle).Ok? <==> exists lease :: lease in live && lease.handle == handle
    {
      if handle in buffers && buffers[handle].leases > 0 {
        CountedIsLive(buffers, live, handle);
      } else {
        forall lease <- live ensures lease.handle != handle {
          LiveIsCounted(buffers, live, lease);
        }
      }
    }

    method ReleaseBuffer(handle: nat) returns (error: Option<StoreError>)
      modifies `buffers
      ensures (Contents(), error) == BufferModel.Release(old(Contents()), handle)
    {
      if handle !in buffers {
        return Some(NotFound);
      }
      var entry := buffers[handle];
      if entry.leases == 0 {
        return Some(NoActiveLease);
      }
      entry := entry.(leases := entry.leases - 1);
      if entry.leases == 0 {
        buffers := buffers - {handle};
      } else {
        buffers := buffers[handle := entry];
      }
      error := None;
    }

    /** Collects the handles that still have a lease: none exactly when no lease object is live. */
    method LeakedHandles() returns (leaked: seq<nat>)
      ensures forall handle :: handle in leaked <==> handle in Leaked(Contents())
      ensures leaked == [] <==> Leaked(Contents()) == {}
      ensures Valid() ==> (leaked == [] <==> live == {})
    {
      leaked := [];
      var rest := buffers.Keys;
      while rest != {}
        invariant rest <= buffers.Keys
        invariant forall handle :: handle in leaked <==> handle in Leaked(Contents()) && handle !in rest
        decreases |rest|
      {
        var handle :| handle in rest;
        rest := rest - {handle};
        if buffers[handle].leases > 0 {
          leaked := leaked + [handle];
        }
      }
      if leaked != [] {
        assert leaked[0] in leaked;
      }
      if Valid() {
        NothingLeaksIff();
      }
    }

    lemma NothingLeaksIff()
      requires Valid()
      ensures Leaked(Contents()) == {} <==> live == {}
    {
      if live != {} {
        var lease :| lease in live;
        LiveIsCounted(buffers, live, lease);
        assert lease.handle in Leaked(Contents());
      }
      if Leaked(Contents()) != {} {
        var handle :| handle in Leaked(Contents());
        CountedIsLive(buffers, live, handle);
      }
    }

    method InsertThree(body: Bytes, prompt: Bytes, role: Bytes) returns (r: Result<(nat, nat, nat), StoreError>)
      modifies `nextHandle, `buffers, `inserted
      ensures (Contents(), r) == BufferModel.InsertThree(old(Contents()), body, prompt, role)
      ensures old(Valid() && NextHandlesUnleased()) ==> Valid()
    {
      var b := Insert(APPLICATION_JSON, body);
      if b.Err? {
        return Err(b.error);
      }
      var p := Insert(TEXT_PLAIN, prompt);
      if p.Err? {
        return Err(p.error);
      }
      var a := Insert(APPLICATION_JSON, role);
      if a.Err? {
        return Err(a.error);
      }
      r := Ok((b.value, p.value, a.value));
    }

    /** The handles a wake request would take have no live lease; only a wrapped counter can break this. */
    ghost predicate NextHandlesUnleased()
      reads this
    {
      && LeasesOn(live, nextHandle) == {}
      && LeasesOn(live, (nextHandle + 1) % HANDLES) == {}
      && LeasesOn(live, ((nextHandle + 1) % HANDLES + 1) % HANDLES) == {}
    }

    /** Inserts the parts of a wake request and returns a lease on each. */
    method BuildBrainWakeRequest(body: Bytes, prompt: Bytes, role: Bytes)
      returns (r: Result<(nat, nat, nat), StoreError>, leases: seq<RuntimeBufferLease>)
      modifies `nextHandle, `buffers, `inserted, `live
      ensures (Contents(), r) == BuildWake(old(Contents()), body, prompt, role)
      ensures if r.Ok? then |leases| == 3 && leases[0].handle == r.value.0 && leases[1].handle == r.value.1
              && leases[2].handle == r.value.2
              else leases == []
      ensures forall lease <- leases :: fresh(lease) && lease.store == this && !lease.released && lease in live
      ensures r.Ok? ==> live == old(live) + {leases[0], leases[1], leases[2]}
      ensures old(Valid() && NextHandlesUnleased()) ==> Valid()
    {
      leases := [];
      r := InsertThree(body, prompt, role);
      if r.Err? {
        return;
      }
      var first := Acquire(r.value.0);
      if first.Err? {
        return Err(first.error), [];
      }
      var second := Acquire(r.value.1);
      if second.Err? {
        return Err(second.error), [];
      }
      var third := Acquire(r.value.2);
      if third.Err? {
        return Err(third.error), [];
      }
      leases := [first.value, second.value, third.value];
    }
  }

  class RuntimeBufferLease {
    const handle: nat
    const store: RuntimeBufferStore
    var released: bool

    constructor (handle: nat, store: RuntimeBufferStore)
      ensures this.handle == handle && this.store == store && !released
    {
      this.handle := handle;
      this.store := store;
      released := false;
    }

    function State(): Lease
      reads this
    {
      Lease(handle, released)
    }

    /** The lease is one the store gave out: live and counted, or spent. */
    ghost predicate Genuine()
      reads this, store, store.live
    {
      store.Valid() && (released || this in store.live)
    }

    /** A genuine lease can be released exactly once, whatever happened to the other leases. */
    method Release() returns (error: Option<StoreError>)
      modifies `released, store`buffers, store`live
      ensures (store.Contents(), State(), error) == ReleaseLease(old(store.Contents()), old(State()))
      ensures old(Genuine()) ==> Genuine() && (error.None? <==> !old(released))
      ensures old(Genuine()) ==> released && store.live == old(store.live) - {this}
    {
      if released {
        return Some(LeaseAlreadyReleased);
      }
      ghost var before := store.buffers;
      if Genuine() {
        LiveIsCounted(store.buffers, store.live, this);
      }
      error := store.ReleaseBuffer(handle);
      if error.None? {
        released := true;
        if Counted(before, store.live) && this in store.live {
          ReleasingCounts(before, store.buffers, store.live, this);
        }
        store.live := store.live - {this};
      }
    }

    /** A copy is a lease object the store does not know of: it is not among the live ones. */
    method Copy() returns (copy: RuntimeBufferLease)
      ensures fresh(copy) && copy.store == store && copy.State() == State()
      ensures copy !in store.live
    {
      copy := new RuntimeBufferLease(handle, store);
      copy.released := released;
    }
  }
}
