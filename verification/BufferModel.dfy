/** The runtime buffer store as values: a handle counter and reference-counted entries, and what
    holds over every run of inserts, acquires and lease releases. */
module BufferModel {
  import opened Wrappers
  import opened Text

  const U32_MAX: nat := 0xFFFF_FFFF
  const HANDLES: nat := U64_MAX + 1

  const APPLICATION_JSON := "application/json"
  const TEXT_PLAIN := "text/plain; charset=utf-8"

  type Bytes = seq<bv8>

  datatype Entry = Entry(mediaType: string, bytes: Bytes, leases: nat)

  datatype StoreError = EmptyBuffer | NotFound | LeaseOverflow | NoActiveLease | LeaseAlreadyReleased

  datatype View = View(mediaType: string, bytes: Bytes)

  datatype Store = Store(nextHandle: nat, buffers: map<nat, Entry>)

  function NewStore(): Store { Store(1, map[]) }

  // Operations

  function Insert(s: Store, mediaType: string, bytes: Bytes): (Store, Result<nat, StoreError>) {
    if bytes == [] then (s, Err(EmptyBuffer))
    else
      (Store((s.nextHandle + 1) % HANDLES, s.buffers[s.nextHandle := Entry(mediaType, bytes, 0)]), Ok(s.nextHandle))
  }

  function Acquire(s: Store, handle: nat): (Store, Option<StoreError>) {
    if handle !in s.buffers then (s, Some(NotFound))
    else
      var entry := s.buffers[handle];
      if entry.leases == U32_MAX then (s, Some(LeaseOverflow))
      else (s.(buffers := s.buffers[handle := entry.(leases := entry.leases + 1)]), None)
  }

  function GetBuffer(s: Store, handle: nat): Result<View, StoreError> {
    if handle !in s.buffers then Err(NotFound)
    else if s.buffers[handle].leases == 0 then Err(NoActiveLease)
    else Ok(View(s.buffers[handle].mediaType, s.buffers[handle].bytes))
  }

  function Release(s: Store, handle: nat): (Store, Option<StoreError>) {
    if handle !in s.buffers then (s, Some(NotFound))
    else
      var entry := s.buffers[handle];
      if entry.leases == 0 then (s, Some(NoActiveLease))
      else if entry.leases == 1 then (s.(buffers := s.buffers - {handle}), None)
      else (s.(buffers := s.buffers[handle := entry.(leases := entry.leases - 1)]), None)
  }

  function Leaked(s: Store): set<nat> {
    set handle | handle in s.buffers && s.buffers[handle].leases > 0
  }

  // Runs

  datatype Lease = Lease(handle: nat, released: bool)

  /** The store, the leases handed out so far, for each handle what was inserted under it, and how often
      a live lease on it was copied. */
  datatype World = World(store: Store, leases: seq<Lease>, inserted: map<nat, View>, inserts: nat,
                         copies: multiset<nat>)

  function NewWorld(): World { World(NewStore(), [], map[], 0, multiset{}) }

  function DoInsert(w: World, mediaType: string, bytes: Bytes): World {
    var (store, r) := Insert(w.store, mediaType, bytes);
    if r.Err? then w
    else w.(store := store, inserted := w.inserted[r.value := View(mediaType, bytes)], inserts := w.inserts + 1)
  }

  function DoAcquire(w: World, handle: nat): World {
    var (store, error) := Acquire(w.store, handle);
    if error.Some? then w else w.(store := store, leases := w.leases + [Lease(handle, false)])
  }

  /** Releasing through a lease: at most once, and the lease is spent only if the store agreed. */
  function ReleaseLease(s: Store, lease: Lease): (Store, Lease, Option<StoreError>) {
    if lease.released then (s, lease, Some(LeaseAlreadyReleased))
    else
      var (store, error) := Release(s, lease.handle);
      if error.Some? then (s, lease, error) else (store, lease.(released := true), None)
  }

  function DoRelease(w: World, i: nat): World {
    if i >= |w.leases| then w
    else
      var (store, lease, _) := ReleaseLease(w.store, w.leases[i]);
      w.(store := store, leases := w.leases[i := lease])
  }

  /** Copying a lease: the store is not told. */
  function DoCopy(w: World, i: nat): World {
    if i >= |w.leases| then w
    else
      var lease := w.leases[i];
      w.(leases := w.leases + [lease], copies := if lease.released then w.copies else w.copies + multiset{lease.handle})
  }

  datatype Step =
    | InsertStep(mediaType: string, bytes: Bytes)
    | AcquireStep(handle: nat)
    | ReleaseStep(lease: nat)
    | CopyStep(lease: nat)

  function Do(w: World, step: Step): World {
    match step
    case InsertStep(mediaType, bytes) => DoInsert(w, mediaType, bytes)
    case AcquireStep(handle) => DoAcquire(w, handle)
    case ReleaseStep(i) => DoRelease(w, i)
    case CopyStep(i) => DoCopy(w, i)
  }

  function Run(w: World, steps: seq<Step>): World {
    if steps == [] then w else Do(Run(w, steps[..|steps| - 1]), steps[|steps| - 1])
  }

  // Counting live leases

  function Weight(lease: Lease, handle: nat): nat {
    if !lease.released && lease.handle == handle then 1 else 0
  }

  function Live(leases: seq<Lease>, handle: nat): nat {
    if leases == [] then 0 else Live(leases[..|leases| - 1], handle) + Weight(leases[|leases| - 1], handle)
  }

  lemma LiveAppend(leases: seq<Lease>, lease: Lease, handle: nat)
    ensures Live(leases + [lease], handle) == Live(leases, handle) + Weight(lease, handle)
  {
    assert (leases + [lease])[..|leases|] == leases;
  }

  lemma {:induction false} LiveUpdate(leases: seq<Lease>, i: nat, lease: Lease, handle: nat)
    requires i < |leases|
    ensures Live(leases[i := lease], handle) == Live(leases, handle) - Weight(leases[i], handle) + Weight(lease, handle)
  {
    var n := |leases| - 1;
    if i == n {
      assert leases[i := lease][..n] == leases[..n];
    } else {
      LiveUpdate(leases[..n], i, lease, handle);
      assert leases[i := lease][..n] == leases[..n][i := lease];
    }
  }

  lemma {:induction false} LiveIsPositiveIff(leases: seq<Lease>, handle: nat)
    ensures Live(leases, handle) > 0 <==>
            exists i :: 0 <= i < |leases| && !leases[i].released && leases[i].handle == handle
  {
    if leases != [] {
      var init, last := leases[..|leases| - 1], leases[|leases| - 1];
      LiveIsPositiveIff(init, handle);
      assert leases == init + [last];
    }
  }

  // The invariant

  function Count(buffers: map<nat, Entry>, handle: nat): nat {
    if handle in buffers then buffers[handle].leases else 0
  }

  /** The live leases on a handle are those the store counts and the copies it does not. */
  ghost predicate CountsAgree(buffers: map<nat, Entry>, leases: seq<Lease>, copies: multiset<nat>) {
    forall handle: nat :: Live(leases, handle) == Count(buffers, handle) + copies[handle]
  }

  ghost predicate ContentsAgree(buffers: map<nat, Entry>, inserted: map<nat, View>) {
    forall handle <- buffers ::
      handle in inserted && inserted[handle] == View(buffers[handle].mediaType, buffers[handle].bytes)
  }

  /** Handles are given out upwards from 1; before the counter wraps none is given out twice. */
  ghost predicate HandlesAgree(nextHandle: nat, inserted: map<nat, View>, inserts: nat) {
    inserts < HANDLES ==> nextHandle == (inserts + 1) % HANDLES && forall handle <- inserted :: 1 <= handle <= inserts
  }

  ghost predicate Inv(w: World) {
    && CountsAgree(w.store.buffers, w.leases, w.copies)
    && ContentsAgree(w.store.buffers, w.inserted)
    && HandlesAgree(w.store.nextHandle, w.inserted, w.inserts)
  }

  /** Before the counter wraps, the next handle is new. */
  lemma NextHandleIsNew(nextHandle: nat, inserted: map<nat, View>, inserts: nat, view: View)
    requires HandlesAgree(nextHandle, inserted, inserts) && inserts < U64_MAX
    ensures nextHandle !in inserted
    ensures HandlesAgree((nextHandle + 1) % HANDLES, inserted[nextHandle := view], inserts + 1)
  {
    assert nextHandle == inserts + 1;
  }

  lemma UnleasedKeepsCounts(buffers: map<nat, Entry>, leases: seq<Lease>, copies: multiset<nat>, handle: nat,
                            entry: Entry)
    requires CountsAgree(buffers, leases, copies) && handle !in buffers && entry.leases == 0
    ensures CountsAgree(buffers[handle := entry], leases, copies)
  {
    forall k: nat ensures Live(leases, k) == Count(buffers[handle := entry], k) + copies[k] {
      assert Live(leases, k) == Count(buffers, k) + copies[k];
    }
  }

  lemma InsertKeeps(w: World, mediaType: string, bytes: Bytes)
    requires Inv(w) && w.inserts < U64_MAX
    ensures Inv(DoInsert(w, mediaType, bytes))
    ensures bytes != [] ==> w.store.nextHandle !in w.inserted
  {
    if bytes != [] {
      NextHandleIsNew(w.store.nextHandle, w.inserted, w.inserts, View(mediaType, bytes));
      UnleasedKeepsCounts(w.store.buffers, w.leases, w.copies, w.store.nextHandle, Entry(mediaType, bytes, 0));
    }
  }

  lemma AcquireKeeps(w: World, handle: nat)
    requires Inv(w)
    ensures Inv(DoAcquire(w, handle))
  {
    var next := DoAcquire(w, handle);
    if next != w {
      forall k: nat ensures Live(next.leases, k) == Count(next.store.buffers, k) + next.copies[k] {
        LiveAppend(w.leases, Lease(handle, false), k);
        assert Live(w.leases, k) == Count(w.store.buffers, k) + w.copies[k];
      }
    }
  }

  lemma CopyKeeps(w: World, i: nat)
    requires Inv(w)
    ensures Inv(DoCopy(w, i))
  {
    if i < |w.leases| {
      var next := DoCopy(w, i);
      forall k: nat ensures Live(next.leases, k) == Count(next.store.buffers, k) + next.copies[k] {
        LiveAppend(w.leases, w.leases[i], k);
        assert Live(w.leases, k) == Count(w.store.buffers, k) + w.copies[k];
      }
    }
  }

  /** Releasing through a live lease succeeds exactly while the store still counts a lease on the handle;
      releasing it again never does. */
  lemma LeaseReleasesIff(w: World, i: nat)
    requires CountsAgree(w.store.buffers, w.leases, w.copies) && i < |w.leases|
    ensures ReleaseLease(w.store, w.leases[i]).2.None? <==>
            !w.leases[i].released && Live(w.leases, w.leases[i].handle) > w.copies[w.leases[i].handle]
    ensures w.leases[i].released ==> ReleaseLease(w.store, w.leases[i]).2 == Some(LeaseAlreadyReleased)
  {
    var handle := w.leases[i].handle;
    assert Live(w.leases, handle) == Count(w.store.buffers, handle) + w.copies[handle];
  }

  lemma ReleaseKeeps(w: World, i: nat)
    requires Inv(w)
    ensures Inv(DoRelease(w, i))
  {
    if i < |w.leases| {
      var next := DoRelease(w, i);
      var handle := w.leases[i].handle;
      assert Live(w.leases, handle) == Count(w.store.buffers, handle) + w.copies[handle];
      forall k: nat ensures Live(next.leases, k) == Count(next.store.buffers, k) + next.copies[k] {
        LiveUpdate(w.leases, i, next.leases[i], k);
        assert Live(w.leases, k) == Count(w.store.buffers, k) + w.copies[k];
      }
    }
  }

  lemma {:induction false} RunKeeps(w: World, steps: seq<Step>)
    requires Inv(w) && Run(w, steps).inserts < HANDLES
    ensures Inv(Run(w, steps))
  {
    if steps != [] {
      var mid := Run(w, steps[..|steps| - 1]);
      RunKeeps(w, steps[..|steps| - 1]);
      match steps[|steps| - 1]
      case InsertStep(mediaType, bytes) =>
        if bytes != [] {
          InsertKeeps(mid, mediaType, bytes);
        }
      case AcquireStep(handle) => AcquireKeeps(mid, handle);
      case ReleaseStep(i) => ReleaseKeeps(mid, i);
      case CopyStep(i) => CopyKeeps(mid, i);
    }
  }

  // Main results, for every run with fewer inserts than there are handles

  lemma NewWorldAgrees()
    ensures Inv(NewWorld())
  {
  }

  lemma EveryRunAgrees(steps: seq<Step>)
    requires Run(NewWorld(), steps).inserts < HANDLES
    ensures Inv(Run(NewWorld(), steps))
  {
    NewWorldAgrees();
    RunKeeps(NewWorld(), steps);
  }

  /** Each entry's count is the number of its live leases less the copies made of live ones; a handle
      without an entry counts none. */
  lemma CountsAreLiveLeases(steps: seq<Step>, handle: nat)
    requires Run(NewWorld(), steps).inserts < HANDLES
    ensures var w := Run(NewWorld(), steps);
            Live(w.leases, handle) == Count(w.store.buffers, handle) + w.copies[handle]
  {
    EveryRunAgrees(steps);
    CountAt(Run(NewWorld(), steps), handle);
  }

  lemma CountAt(w: World, handle: nat)
    requires CountsAgree(w.store.buffers, w.leases, w.copies)
    ensures Live(w.leases, handle) == Count(w.store.buffers, handle) + w.copies[handle]
  {
  }

  ghost predicate Exact(w: World) {
    forall handle: nat :: Live(w.leases, handle) == Count(w.store.buffers, handle)
  }

  /** The counts are the live leases exactly when no live lease was ever copied. */
  lemma CountsAreExactIff(steps: seq<Step>)
    requires Run(NewWorld(), steps).inserts < HANDLES
    ensures var w := Run(NewWorld(), steps);
            Exact(w) <==> w.copies == multiset{}
  {
    EveryRunAgrees(steps);
    var w := Run(NewWorld(), steps);
    if Exact(w) {
      forall handle: nat ensures w.copies[handle] == 0 {
        CountAt(w, handle);
        assert Live(w.leases, handle) == Count(w.store.buffers, handle);
      }
    }
    if w.copies == multiset{} {
      forall handle: nat ensures Live(w.leases, handle) == Count(w.store.buffers, handle) {
        CountAt(w, handle);
      }
    }
  }

  /** One copy keeps exact counts exact precisely when the copied lease was already released. */
  lemma CopyIsHarmlessIff(w: World, i: nat)
    requires Exact(w) && i < |w.leases|
    ensures Exact(DoCopy(w, i)) <==> w.leases[i].released
  {
    var next, lease := DoCopy(w, i), w.leases[i];
    if lease.released {
      forall k: nat ensures Live(next.leases, k) == Count(next.store.buffers, k) {
        LiveAppend(w.leases, lease, k);
        assert Live(w.leases, k) == Count(w.store.buffers, k);
      }
    } else {
      LiveAppend(w.leases, lease, lease.handle);
      assert Live(w.leases, lease.handle) == Count(w.store.buffers, lease.handle);
      assert Live(next.leases, lease.handle) != Count(next.store.buffers, lease.handle);
    }
  }

  /** Through a live lease one reads back exactly what was inserted, as long as the live leases outnumber
      the copies made of live ones, and otherwise nothing; so always when none was copied. */
  lemma LiveLeaseReads(steps: seq<Step>, i: nat)
    requires var w := Run(NewWorld(), steps);
             w.inserts < HANDLES && i < |w.leases| && !w.leases[i].released
    ensures var w := Run(NewWorld(), steps);
            var handle := w.leases[i].handle;
            && Live(w.leases, handle) > 0
            && (GetBuffer(w.store, handle).Ok? <==> Live(w.leases, handle) > w.copies[handle])
            && (GetBuffer(w.store, handle).Ok? ==>
                  handle in w.inserted && GetBuffer(w.store, handle) == Ok(w.inserted[handle]))
  {
    EveryRunAgrees(steps);
    LeaseReads(Run(NewWorld(), steps), i);
  }

  lemma LeaseReads(w: World, i: nat)
    requires Inv(w) && i < |w.leases| && !w.leases[i].released
    ensures var handle := w.leases[i].handle;
            && Live(w.leases, handle) > 0
            && (GetBuffer(w.store, handle).Ok? <==> Live(w.leases, handle) > w.copies[handle])
            && (GetBuffer(w.store, handle).Ok? ==>
                  handle in w.inserted && GetBuffer(w.store, handle) == Ok(w.inserted[handle]))
  {
    LiveIsPositiveIff(w.leases, w.leases[i].handle);
    CountAt(w, w.leases[i].handle);
  }

  /** The leak check reports exactly the handles whose live leases outnumber their copies; without copies
      it passes exactly when no lease is live. */
  lemma NoLeaksIff(steps: seq<Step>)
    requires Run(NewWorld(), steps).inserts < HANDLES
    ensures var w := Run(NewWorld(), steps);
            && (forall handle: nat :: handle in Leaked(w.store) <==> Live(w.leases, handle) > w.copies[handle])
            && (w.copies == multiset{} ==>
                  (Leaked(w.store) == {} <==> forall i :: 0 <= i < |w.leases| ==> w.leases[i].released))
  {
    EveryRunAgrees(steps);
    var w := Run(NewWorld(), steps);
    LeaksAre(w);
    if w.copies == multiset{} {
      NothingLeakedIff(w);
    }
  }

  lemma LeaksAre(w: World)
    requires Inv(w)
    ensures forall handle: nat :: handle in Leaked(w.store) <==> Live(w.leases, handle) > w.copies[handle]
  {
    forall handle: nat ensures handle in Leaked(w.store) <==> Live(w.leases, handle) > w.copies[handle] {
      CountAt(w, handle);
    }
  }

  lemma NothingLeakedIff(w: World)
    requires forall handle: nat :: handle in Leaked(w.store) <==> Live(w.leases, handle) > 0
    ensures Leaked(w.store) == {} <==> forall i :: 0 <= i < |w.leases| ==> w.leases[i].released
  {
    if Leaked(w.store) == {} {
      forall i | 0 <= i < |w.leases| ensures w.leases[i].released {
        LiveIsPositiveIff(w.leases, w.leases[i].handle);
        assert w.leases[i].handle !in Leaked(w.store);
      }
    } else {
      var h :| h in Leaked(w.store);
      assert Live(w.leases, h) > 0;
      LiveIsPositiveIff(w.leases, h);
    }
  }

  lemma StepKeepsHandle(w: World, step: Step, handle: nat)
    requires Inv(w) && Do(w, step).inserts < HANDLES && handle in w.inserted
    ensures var next := Do(w, step);
            && handle in next.inserted && next.inserted[handle] == w.inserted[handle]
            && (handle in next.store.buffers ==> handle in w.store.buffers)
  {
    if step.InsertStep? && step.bytes != [] {
      InsertKeeps(w, step.mediaType, step.bytes);
    }
  }

  /** What was inserted under a handle never changes, and a handle whose entry is gone stays gone. */
  lemma {:induction false} HandlesAreNotReused(w: World, steps: seq<Step>, handle: nat)
    requires Inv(w) && Run(w, steps).inserts < HANDLES && handle in w.inserted
    ensures var end := Run(w, steps);
            && handle in end.inserted && end.inserted[handle] == w.inserted[handle]
            && (handle in end.store.buffers ==> handle in w.store.buffers)
  {
    if steps != [] {
      HandlesAreNotReused(w, steps[..|steps| - 1], handle);
      RunKeeps(w, steps[..|steps| - 1]);
      StepKeepsHandle(Run(w, steps[..|steps| - 1]), steps[|steps| - 1], handle);
    }
  }

  /** Whether an insert disturbs an existing entry: exactly when the wrapped counter has come round to
      a handle still in use. */
  lemma InsertOverwritesIff(s: Store, mediaType: string, bytes: Bytes, handle: nat)
    requires bytes != [] && handle in s.buffers && s.buffers[handle].leases > 0
    ensures var s' := Insert(s, mediaType, bytes).0;
            GetBuffer(s', handle) != GetBuffer(s, handle) <==> handle == s.nextHandle
  {
  }

  // What each operation answers

  ghost predicate SameViews(a: map<nat, Entry>, b: map<nat, Entry>, handles: set<nat>) {
    forall h <- handles ::
      (h in a <==> h in b) && (h in a ==> a[h].mediaType == b[h].mediaType && a[h].bytes == b[h].bytes)
  }

  /** What is inserted can be leased and then read back, whatever else the store holds. */
  lemma InsertedReadsBack(s: Store, mediaType: string, bytes: Bytes)
    requires bytes != []
    ensures var (inserted, r) := Insert(s, mediaType, bytes);
            && r == Ok(s.nextHandle)
            && GetBuffer(inserted, r.value) == Err(NoActiveLease)
            && Acquire(inserted, r.value).1 == None
            && GetBuffer(Acquire(inserted, r.value).0, r.value) == Ok(View(mediaType, bytes))
  {
  }

  /** A lease is granted exactly on an entry whose count has room, and adds one to that count alone. */
  lemma AcquireSucceedsIff(s: Store, handle: nat, other: nat)
    ensures var (next, error) := Acquire(s, handle);
            && (error == Some(NotFound) <==> handle !in s.buffers)
            && (error == Some(LeaseOverflow) <==> handle in s.buffers && Count(s.buffers, handle) == U32_MAX)
            && (error.Some? ==> error.value in {NotFound, LeaseOverflow} && next == s)
            && Count(next.buffers, other) == Count(s.buffers, other) + (if error.None? && other == handle then 1 else 0)
            && next.nextHandle == s.nextHandle && SameViews(s.buffers, next.buffers, s.buffers.Keys + {other})
  {
  }

  /** An entry is read exactly while its count is not zero. */
  lemma ReadSucceedsIff(s: Store, handle: nat)
    ensures GetBuffer(s, handle).Ok? <==> Count(s.buffers, handle) > 0
    ensures GetBuffer(s, handle) == Err(NotFound) <==> handle !in s.buffers
    ensures GetBuffer(s, handle) == Err(NoActiveLease) <==>
            handle in s.buffers && Count(s.buffers, handle) == 0
  {
  }

  /** A release succeeds exactly on an entry with a lease and takes one from that count alone; the entry goes
      exactly with its last lease. */
  lemma ReleaseSucceedsIff(s: Store, handle: nat, other: nat)
    ensures var (next, error) := Release(s, handle);
            && (error == Some(NotFound) <==> handle !in s.buffers)
            && (error == Some(NoActiveLease) <==> handle in s.buffers && Count(s.buffers, handle) == 0)
            && (error.Some? ==> error.value in {NotFound, NoActiveLease} && next == s)
            && Count(next.buffers, other) == Count(s.buffers, other) - (if error.None? && other == handle then 1 else 0)
            && (handle in s.buffers && handle !in next.buffers <==> Count(s.buffers, handle) == 1)
            && next.nextHandle == s.nextHandle && SameViews(s.buffers, next.buffers, next.buffers.Keys)
            && (other != handle ==> SameViews(s.buffers, next.buffers, {other}))
  {
  }

  // A wake request

  function InsertThree(s: Store, body: Bytes, prompt: Bytes, role: Bytes)
    : (Store, Result<(nat, nat, nat), StoreError>)
  {
    var (s1, b) := Insert(s, APPLICATION_JSON, body);
    if b.Err? then (s1, Err(b.error)) else
    var (s2, p) := Insert(s1, TEXT_PLAIN, prompt);
    if p.Err? then (s2, Err(p.error)) else
    var (s3, r) := Insert(s2, APPLICATION_JSON, role);
    if r.Err? then (s3, Err(r.error)) else (s3, Ok((b.value, p.value, r.value)))
  }

  function AcquireThree(s: Store, a: nat, b: nat, c: nat): (Store, Option<StoreError>) {
    var (s1, e1) := Acquire(s, a);
    if e1.Some? then (s1, e1) else
    var (s2, e2) := Acquire(s1, b);
    if e2.Some? then (s2, e2) else Acquire(s2, c)
  }

  /** Inserts the three buffers of a wake request, then leases each. */
  function BuildWake(s: Store, body: Bytes, prompt: Bytes, role: Bytes): (Store, Result<(nat, nat, nat), StoreError>) {
    var (s1, r) := InsertThree(s, body, prompt, role);
    if r.Err? then (s1, r) else
    var (s2, error) := AcquireThree(s1, r.value.0, r.value.1, r.value.2);
    if error.Some? then (s2, Err(error.value)) else (s2, r)
  }

  function HandleAfter(h: nat, k: nat): nat { (h + k) % HANDLES }

  function Three(buffers: map<nat, Entry>, a: nat, x: Entry, b: nat, y: Entry, c: nat, z: Entry): map<nat, Entry> {
    buffers[a := x][b := y][c := z]
  }

  lemma AcquiredThree(s: Store, buffers: map<nat, Entry>, a: nat, x: Entry, b: nat, y: Entry, c: nat, z: Entry)
    requires a != b && b != c && a != c && x.leases == 0 && y.leases == 0 && z.leases == 0
    requires s.buffers == Three(buffers, a, x, b, y, c, z)
    ensures AcquireThree(s, a, b, c) ==
            (s.(buffers := Three(buffers, a, x.(leases := 1), b, y.(leases := 1), c, z.(leases := 1))), None)
  {
    var x', y', z' := x.(leases := 1), y.(leases := 1), z.(leases := 1);
    assert Three(s.buffers, a, x', b, y', c, z') == Three(buffers, a, x', b, y', c, z');
  }

  lemma HandlesDiffer(h: nat)
    requires h < HANDLES
    ensures HandleAfter(h, 1) != h && HandleAfter(h, 2) != h && HandleAfter(h, 1) != HandleAfter(h, 2)
    ensures HandleAfter(h, 1) < HANDLES && HandleAfter(h, 2) < HANDLES
    ensures HandleAfter(HandleAfter(h, 1), 1) == HandleAfter(h, 2)
            && HandleAfter(HandleAfter(h, 2), 1) == HandleAfter(h, 3)
  {
  }

  lemma InsertedThree(s: Store, body: Bytes, prompt: Bytes, role: Bytes)
    requires s.nextHandle < HANDLES && body != [] && prompt != [] && role != []
    ensures var a, b, c := s.nextHandle, HandleAfter(s.nextHandle, 1), HandleAfter(s.nextHandle, 2);
            && a != b && b != c && a != c
            && InsertThree(s, body, prompt, role) ==
               (Store(HandleAfter(s.nextHandle, 3),
                      Three(s.buffers, a, Entry(APPLICATION_JSON, body, 0), b, Entry(TEXT_PLAIN, prompt, 0),
                            c, Entry(APPLICATION_JSON, role, 0))),
                Ok((a, b, c)))
  {
    HandlesDiffer(s.nextHandle);
  }

  lemma BuiltWake(s: Store, body: Bytes, prompt: Bytes, role: Bytes)
    requires s.nextHandle < HANDLES && body != [] && prompt != [] && role != []
    ensures var a, b, c := s.nextHandle, HandleAfter(s.nextHandle, 1), HandleAfter(s.nextHandle, 2);
            && a != b && b != c && a != c
            && BuildWake(s, body, prompt, role) ==
               (Store(HandleAfter(s.nextHandle, 3),
                      Three(s.buffers, a, Entry(APPLICATION_JSON, body, 1), b, Entry(TEXT_PLAIN, prompt, 1),
                            c, Entry(APPLICATION_JSON, role, 1))),
                Ok((a, b, c)))
  {
    InsertedThree(s, body, prompt, role);
    AcquiredThree(InsertThree(s, body, prompt, role).0, s.buffers,
                  s.nextHandle, Entry(APPLICATION_JSON, body, 0),
                  HandleAfter(s.nextHandle, 1), Entry(TEXT_PLAIN, prompt, 0),
                  HandleAfter(s.nextHandle, 2), Entry(APPLICATION_JSON, role, 0));
  }

  /** Building succeeds exactly when no part is empty. */
  lemma BuildWakeSucceedsIff(s: Store, body: Bytes, prompt: Bytes, role: Bytes)
    requires s.nextHandle < HANDLES
    ensures BuildWake(s, body, prompt, role).1.Ok? <==> body != [] && prompt != [] && role != []
  {
    if body != [] && prompt != [] && role != [] {
      BuiltWake(s, body, prompt, role);
    }
  }

  /** The leases of a wake request read its parts: body and role assembly as JSON, the prompt as text. */
  lemma WakePartsRead(s: Store, body: Bytes, prompt: Bytes, role: Bytes)
    requires s.nextHandle < HANDLES && body != [] && prompt != [] && role != []
    ensures var (next, r) := BuildWake(s, body, prompt, role);
            && r.Ok?
            && GetBuffer(next, r.value.0) == Ok(View("application/json", body))
            && GetBuffer(next, r.value.1) == Ok(View("text/plain; charset=utf-8", prompt))
            && GetBuffer(next, r.value.2) == Ok(View("application/json", role))
  {
    BuiltWake(s, body, prompt, role);
  }

  /** After any run with room for three more handles, releasing the three leases of a wake request
      through the lease objects, in any order, restores the store's contents. */
  lemma WakeLeasesRestore(w: World, body: Bytes, prompt: Bytes, role: Bytes, a: nat, b: nat, c: nat)
    requires Inv(w) && w.inserts + 3 < HANDLES && body != [] && prompt != [] && role != []
    requires var h := w.store.nextHandle;
             {a, b, c} == {h, HandleAfter(h, 1), HandleAfter(h, 2)}
    ensures var (built, r) := BuildWake(w.store, body, prompt, role);
            var (s1, l1, e1) := ReleaseLease(built, Lease(a, false));
            var (s2, l2, e2) := ReleaseLease(s1, Lease(b, false));
            var (s3, l3, e3) := ReleaseLease(s2, Lease(c, false));
            && r.Ok? && {r.value.0, r.value.1, r.value.2} == {a, b, c}
            && e1.None? && e2.None? && e3.None? && l1.released && l2.released && l3.released
            && s3.buffers == w.store.buffers
  {
    NextThreeAreNew(w);
    ReleasingThreeRestores(w.store, body, prompt, role, a, b, c);
    BuiltWake(w.store, body, prompt, role);
  }

  lemma NextThreeAreNew(w: World)
    requires Inv(w) && w.inserts + 3 < HANDLES
    ensures var h := w.store.nextHandle;
            && h < HANDLES
            && h !in w.store.buffers && HandleAfter(h, 1) !in w.store.buffers && HandleAfter(h, 2) !in w.store.buffers
  {
    var h := w.store.nextHandle;
    assert h == w.inserts + 1 && HandleAfter(h, 1) == w.inserts + 2 && HandleAfter(h, 2) == w.inserts + 3;
    forall handle <- w.store.buffers ensures handle <= w.inserts {
      assert handle in w.inserted;
    }
  }

  lemma ReleasingThreeRestores(s: Store, body: Bytes, prompt: Bytes, role: Bytes, a: nat, b: nat, c: nat)
    requires s.nextHandle < HANDLES && body != [] && prompt != [] && role != []
    requires s.nextHandle !in s.buffers && HandleAfter(s.nextHandle, 1) !in s.buffers
             && HandleAfter(s.nextHandle, 2) !in s.buffers
    requires {a, b, c} == {s.nextHandle, HandleAfter(s.nextHandle, 1), HandleAfter(s.nextHandle, 2)}
    ensures var built := BuildWake(s, body, prompt, role).0;
            var (s1, e1) := Release(built, a);
            var (s2, e2) := Release(s1, b);
            var (s3, e3) := Release(s2, c);
            e1.None? && e2.None? && e3.None? && s3.buffers == s.buffers
  {
    BuiltWake(s, body, prompt, role);
    var built := BuildWake(s, body, prompt, role).0;
    OrderIsDistinct(a, b, c, s.nextHandle, HandleAfter(s.nextHandle, 1), HandleAfter(s.nextHandle, 2));
    assert built.buffers - {a} - {b} - {c} == s.buffers;
  }

  lemma OrderIsDistinct(a: nat, b: nat, c: nat, x: nat, y: nat, z: nat)
    requires {a, b, c} == {x, y, z} && x != y && y != z && x != z
    ensures a != b && b != c && a != c && a in {x, y, z} && b in {x, y, z} && c in {x, y, z}
  {
    assert |{x, y, z}| == 3;
    assert a == b ==> {a, b, c} == {b, c} && |{b, c}| <= 2;
    assert b == c ==> {a, b, c} == {a, c} && |{a, c}| <= 2;
    assert a == c ==> {a, b, c} == {a, b} && |{a, b}| <= 2;
  }

  /** The handles a failed request leaves entries under: those of the parts before the empty one. */
  function Orphans(s: Store, body: Bytes, prompt: Bytes): set<nat> {
    if body == [] then {}
    else if prompt == [] then {s.nextHandle}
    else {s.nextHandle, HandleAfter(s.nextHandle, 1)}
  }

  /** A failed request leaves the store's contents unchanged exactly when its first part was the empty
      one.  Otherwise it leaves entries behind that nobody can read or release and that the leak check
      does not see. */
  lemma FailedWakeLeavesOrphans(s: Store, body: Bytes, prompt: Bytes, role: Bytes)
    requires s.nextHandle < HANDLES && s.nextHandle !in s.buffers && HandleAfter(s.nextHandle, 1) !in s.buffers
    requires BuildWake(s, body, prompt, role).1.Err?
    ensures var (s', r) := BuildWake(s, body, prompt, role);
            && r == Err(EmptyBuffer)
            && (s'.buffers == s.buffers <==> body == [])
            && s'.buffers.Keys == s.buffers.Keys + Orphans(s, body, prompt)
            && (forall handle <- s.buffers :: s'.buffers[handle] == s.buffers[handle])
            && Leaked(s') == Leaked(s)
            && (forall handle <- Orphans(s, body, prompt) ::
                  GetBuffer(s', handle) == Err(NoActiveLease) && Release(s', handle).1 == Some(NoActiveLease))
  {
    BuildWakeSucceedsIff(s, body, prompt, role);
    var s' := BuildWake(s, body, prompt, role).0;
    var a: nat, b: nat := s.nextHandle, HandleAfter(s.nextHandle, 1);
    HandlesDiffer(s.nextHandle);
    if body == [] {
      assert s'.buffers == s.buffers;
    } else if prompt == [] {
      assert s'.buffers == s.buffers[a := Entry(APPLICATION_JSON, body, 0)];
    } else {
      assert s'.buffers == s.buffers[a := Entry(APPLICATION_JSON, body, 0)][b := Entry(TEXT_PLAIN, prompt, 0)];
    }
  }

  // A copied lease

  /** One buffer, two leases on it, a copy of the first, and both of these released. */
  function CopyAndRelease(mediaType: string, bytes: Bytes): seq<Step> {
    [InsertStep(mediaType, bytes), AcquireStep(1), AcquireStep(1), CopyStep(0), ReleaseStep(0), ReleaseStep(2)]
  }

  lemma {:induction false} RunAppend(w: World, steps: seq<Step>, step: Step)
    ensures Run(w, steps + [step]) == Do(Run(w, steps), step)
  {
    assert (steps + [step])[..|steps|] == steps;
  }

  lemma SixSteps(w: World, a: Step, b: Step, c: Step, d: Step, e: Step, f: Step)
    ensures Run(w, [a, b, c, d, e, f]) == Do(Do(Do(Do(Do(Do(w, a), b), c), d), e), f)
  {
    hide Do;
    RunAppend(w, [], a);
    RunAppend(w, [a], b);
    RunAppend(w, [a, b], c);
    RunAppend(w, [a, b, c], d);
    RunAppend(w, [a, b, c, d], e);
    RunAppend(w, [a, b, c, d, e], f);
    assert [] + [a] == [a] && [a] + [b] == [a, b] && [a, b] + [c] == [a, b, c] && [a, b, c] + [d] == [a, b, c, d];
    assert [a, b, c, d] + [e] == [a, b, c, d, e] && [a, b, c, d, e] + [f] == [a, b, c, d, e, f];
  }

  /** The entry is then gone from under the second lease, which is still live. */
  lemma CopiedLeaseBreaksCounting(mediaType: string, bytes: Bytes)
    requires bytes != []
    ensures var w := Run(NewWorld(), CopyAndRelease(mediaType, bytes));
            && |w.leases| == 3 && w.leases[1] == Lease(1, false) && w.copies == multiset{1}
            && GetBuffer(w.store, w.leases[1].handle) == Err(NotFound)
  {
    SixSteps(NewWorld(), InsertStep(mediaType, bytes), AcquireStep(1), AcquireStep(1), CopyStep(0), ReleaseStep(0),
             ReleaseStep(2));
    var w := Do(Do(Do(NewWorld(), InsertStep(mediaType, bytes)), AcquireStep(1)), AcquireStep(1));
    TwoAcquires(mediaType, bytes, w);
    AfterTwoAcquires(Entry(mediaType, bytes, 0), w, w.inserted);
  }

  lemma TwoAcquires(mediaType: string, bytes: Bytes, w: World)
    requires bytes != [] && w == Do(Do(Do(NewWorld(), InsertStep(mediaType, bytes)), AcquireStep(1)), AcquireStep(1))
    ensures w == World(Store(2, map[1 := Entry(mediaType, bytes, 2)]), [Lease(1, false), Lease(1, false)],
                       w.inserted, 1, multiset{})
  {
    var inserted := Do(NewWorld(), InsertStep(mediaType, bytes));
    assert inserted.store.buffers == map[1 := Entry(mediaType, bytes, 0)];
    var once := Do(inserted, AcquireStep(1));
    assert once.store.buffers == map[1 := Entry(mediaType, bytes, 1)] && once.leases == [Lease(1, false)];
  }

  lemma AfterTwoAcquires(entry: Entry, w: World, inserted: map<nat, View>)
    requires w == World(Store(2, map[1 := entry.(leases := 2)]), [Lease(1, false), Lease(1, false)],
                        inserted, 1, multiset{})
    ensures var end := Do(Do(Do(w, CopyStep(0)), ReleaseStep(0)), ReleaseStep(2));
            && |end.leases| == 3 && end.leases[1] == Lease(1, false) && end.copies == multiset{1}
            && end.store.buffers == map[]
  {
    var copied := Do(w, CopyStep(0));
    assert copied.leases == [Lease(1, false), Lease(1, false), Lease(1, false)];
    var released := Do(copied, ReleaseStep(0));
    assert released.leases == [Lease(1, true), Lease(1, false), Lease(1, false)];
    assert released.store.buffers == map[1 := entry.(leases := 1)];
  }

  // The handle counter comes round

  /** The handle of the insert after the first `n + 1` ones. */
  function ChurnHandle(n: nat): nat { (n + 2) % HANDLES }

  /** `n` buffers that are inserted, leased and released again at once. */
  function Churn(mediaType: string, bytes: Bytes, n: nat): seq<Step> {
    if n == 0 then []
    else
      Churn(mediaType, bytes, n - 1) +
      [InsertStep(mediaType, bytes), AcquireStep(ChurnHandle(n - 1)), ReleaseStep(n)]
  }

  /** The first buffer is the only one left, under its one live lease. */
  predicate FirstAlone(w: World, view: View, n: nat) {
    && w.store == Store(ChurnHandle(n), map[1 := Entry(view.mediaType, view.bytes, 1)])
    && |w.leases| == n + 1 && w.leases[0] == Lease(1, false)
  }

  lemma OneChurn(w: World, view: View, mediaType: string, bytes: Bytes, n: nat)
    requires FirstAlone(w, view, n) && n < HANDLES - 1 && bytes != []
    ensures FirstAlone(DoRelease(DoAcquire(DoInsert(w, mediaType, bytes), ChurnHandle(n)), n + 1), view, n + 1)
  {
    var h := ChurnHandle(n);
    assert h != 1 && (h + 1) % HANDLES == ChurnHandle(n + 1);
    var inserted := DoInsert(w, mediaType, bytes);
    var acquired := DoAcquire(inserted, h);
    assert acquired.store.buffers == inserted.store.buffers[h := Entry(mediaType, bytes, 1)];
    assert acquired.leases[n + 1] == Lease(h, false);
    var released := DoRelease(acquired, n + 1);
    assert released.store.buffers == w.store.buffers;
  }

  lemma ThreeMore(w: World, steps: seq<Step>, a: Step, b: Step, c: Step)
    ensures Run(w, steps + [a, b, c]) == Do(Do(Do(Run(w, steps), a), b), c)
  {
    hide Do, Run;
    RunAppend(w, steps, a);
    RunAppend(w, steps + [a], b);
    RunAppend(w, steps + [a] + [b], c);
    assert steps + [a] + [b] + [c] == steps + [a, b, c];
  }

  lemma {:induction false} ChurnLeavesFirstAlone(w: World, view: View, mediaType: string, bytes: Bytes, n: nat)
    requires FirstAlone(w, view, 0) && n < HANDLES && bytes != []
    ensures FirstAlone(Run(w, Churn(mediaType, bytes, n)), view, n)
  {
    if n > 0 {
      ChurnLeavesFirstAlone(w, view, mediaType, bytes, n - 1);
      var before := Churn(mediaType, bytes, n - 1);
      ThreeMore(w, before, InsertStep(mediaType, bytes), AcquireStep(ChurnHandle(n - 1)), ReleaseStep(n));
      OneChurn(Run(w, before), view, mediaType, bytes, n - 1);
    }
  }

  /** One buffer is inserted and leased, and then as many come and go as there are other handles. */
  function ComeRound(mediaType: string, bytes: Bytes, mediaType': string, bytes': Bytes): seq<Step> {
    [InsertStep(mediaType, bytes), AcquireStep(1)] + Churn(mediaType', bytes', HANDLES - 1)
  }

  lemma {:induction false} RunConcat(w: World, a: seq<Step>, b: seq<Step>)
    ensures Run(w, a + b) == Run(Run(w, a), b)
    decreases |b|
  {
    hide Do;
    if b == [] {
      assert a + b == a;
    } else {
      var n := |b| - 1;
      RunConcat(w, a, b[..n]);
      assert (a + b)[..|a + b| - 1] == a + b[..n];
    }
  }

  lemma FirstIsAlone(mediaType: string, bytes: Bytes)
    requires bytes != []
    ensures FirstAlone(Run(NewWorld(), [InsertStep(mediaType, bytes), AcquireStep(1)]), View(mediaType, bytes), 0)
  {
    var w, i, a := NewWorld(), InsertStep(mediaType, bytes), AcquireStep(1);
    RunAppend(w, [], i);
    RunAppend(w, [i], a);
    assert [] + [i] == [i] && [i] + [a] == [i, a];
    assert Do(w, i).store.buffers == map[1 := Entry(mediaType, bytes, 0)];
  }

  /** The counter has come round to the leased handle: until now the lease read what was inserted, and
      after one more insert, which gets the same handle, the live lease reads nothing. */
  lemma WrappedCounterOverwrites(mediaType: string, bytes: Bytes, mediaType': string, bytes': Bytes)
    requires bytes != [] && bytes' != []
    ensures var w := Run(NewWorld(), ComeRound(mediaType, bytes, mediaType', bytes'));
            var next := DoInsert(w, mediaType', bytes');
            && |w.leases| > 0 && w.leases[0] == Lease(1, false) && w.leases == next.leases
            && GetBuffer(w.store, 1) == Ok(View(mediaType, bytes))
            && Insert(w.store, mediaType', bytes').1 == Ok(1)
            && GetBuffer(next.store, 1) == Err(NoActiveLease)
  {
    var prelude, churn := [InsertStep(mediaType, bytes), AcquireStep(1)], Churn(mediaType', bytes', HANDLES - 1);
    RunConcat(NewWorld(), prelude, churn);
    FirstIsAlone(mediaType, bytes);
    var view := View(mediaType, bytes);
    ChurnLeavesFirstAlone(Run(NewWorld(), prelude), view, mediaType', bytes', HANDLES - 1);
    AloneIsOverwritten(Run(NewWorld(), prelude + churn), view, mediaType', bytes', HANDLES - 1);
  }

  lemma AloneIsOverwritten(w: World, view: View, mediaType: string, bytes: Bytes, n: nat)
    requires FirstAlone(w, view, n) && ChurnHandle(n) == 1 && bytes != []
    ensures GetBuffer(w.store, 1) == Ok(view) && Insert(w.store, mediaType, bytes).1 == Ok(1)
    ensures var next := DoInsert(w, mediaType, bytes);
            next.leases == w.leases && GetBuffer(next.store, 1) == Err(NoActiveLease)
  {
  }
}
