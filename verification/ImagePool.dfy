/** The image resolver's pool: one consumer submits process handles into a fixed set of slots, four workers take
    queued slots with a counting semaphore, resolve the image outside the lock, close the handle and leave the
    path, and the consumer harvests finished slots into its cache. Each method below is one atomic step; the
    consumer and the workers interleave them freely.

    A handle names one open reference. The consumer opens one for each query and owns it until a slot takes it over or
    the consumer closes it: on a stop, a cache hit, a slot already there for the key, or no room. */
module ImagePool {
  import opened Options
  import opened ImageCache

  const SLOTS := 16
  const WORKERS := 4
  const WAIT := 150

  datatype Phase = Empty | Queued | Running | Done

  /** `origin`, `open` and `worker` are history: the handle the slot was filled with, whether it is still open,
      and who runs the slot. */
  datatype Slot = Slot(phase: Phase, key: Key, process: Option<Handle>, submitted: nat, started: nat,
                       path: Option<Path>,
                       origin: Handle, open: bool, worker: nat)

  /** A worker waits, has taken a semaphore count, resolves a slot, has its path, has closed the handle, or has left. */
  datatype Worker = Waiting | Acquired | Resolving(slot: nat) | Resolved(slot: nat, path: Option<Path>)
    | Closed(slot: nat, path: Option<Path>) | Left

  predicate Busy(w: Worker) { w.Resolving? || w.Resolved? || w.Closed? }

  /** History: the handles opened, the one the consumer owns, the slot each submitted open one is in, how often each
      was closed, under which key each was submitted and which path each gave. */
  datatype Ledger = Ledger(seen: set<Handle>, owned: Option<Handle>, held: map<Handle, nat>, closed: multiset<Handle>,
                           submitted: set<(Key, Handle)>, resolved: set<(Handle, Path)>)

  function QueuedSlots(slots: seq<Slot>): set<nat> { set k | 0 <= k < |slots| && slots[k].phase == Queued }

  function AcquiredWorkers(workers: seq<Worker>): set<nat> { set w | 0 <= w < |workers| && workers[w] == Acquired }

  function RunningSlots(slots: seq<Slot>): set<nat> { set k | 0 <= k < |slots| && slots[k].phase == Running }

  /** Slots on which a worker has been for at least the wait. */
  function OverdueSlots(slots: seq<Slot>, now: nat): set<nat> {
    set k | 0 <= k < |slots| && Overdue(slots[k], now)
  }

  // --- Invariants ---

  /** At most one non-empty slot per key. */
  predicate UniqueKeys(slots: seq<Slot>) {
    forall i, j :: 0 <= i < j < |slots| && slots[i].phase != Empty && slots[j].phase != Empty ==>
      slots[i].key != slots[j].key
  }

  /** Semaphore counts and the workers that took one cover the queued slots exactly. */
  predicate Balanced(slots: seq<Slot>, workers: seq<Worker>, permits: nat) {
    permits + |AcquiredWorkers(workers)| == |QueuedSlots(slots)|
  }

  /** Running slots and busy workers correspond, and a slot holds its handle until its worker has closed it. */
  predicate Staffed(slots: seq<Slot>, workers: seq<Worker>) {
    && (forall w :: 0 <= w < |workers| && Busy(workers[w]) ==> AtWork(slots, workers[w], w))
    && (forall k :: 0 <= k < |slots| && slots[k].phase == Running ==> Attended(workers, slots[k].worker, k))
  }

  predicate AtWork(slots: seq<Slot>, worker: Worker, w: nat)
    requires Busy(worker)
  {
    && worker.slot < |slots| && slots[worker.slot].phase == Running && slots[worker.slot].worker == w
    && (slots[worker.slot].open <==> !worker.Closed?)
  }

  predicate Attended(workers: seq<Worker>, w: nat, k: nat) { w < |workers| && Busy(workers[w]) && workers[w].slot == k }

  predicate SlotOwns(s: Slot) {
    match s.phase
    case Queued => s.open && s.process == Some(s.origin)
    case Running => s.process == Some(s.origin)
    case Done => !s.open && s.process.None?
    case Empty => !s.open && s.process.None?
  }

  /** Every handle opened is the consumer's, or open in exactly one slot, or has been closed exactly once. */
  ghost predicate ClosedOnce(slots: seq<Slot>, l: Ledger) {
    && (forall k :: 0 <= k < |slots| ==> SlotOwns(slots[k]))
    && (forall k :: 0 <= k < |slots| && slots[k].open ==> slots[k].origin in l.held && l.held[slots[k].origin] == k)
    && (forall h :: h in l.held ==>
          h in l.seen && l.held[h] < |slots| && slots[l.held[h]].open && slots[l.held[h]].origin == h)
    && (l.owned.Some? ==> l.owned.value in l.seen && l.owned.value !in l.held)
    && (forall h :: l.closed[h] == if h in l.seen && h !in l.held && l.owned != Some(h) then 1 else 0)
  }

  /** A path belongs to a handle submitted under the same key. */
  predicate Sourced(key: Key, path: Option<Path>, origin: Handle, l: Ledger) {
    (key, origin) in l.submitted && (path.Some? ==> (origin, path.value) in l.resolved)
  }

  predicate SlotsSourced(slots: seq<Slot>, workers: seq<Worker>, l: Ledger) {
    && (forall k :: 0 <= k < |slots| && slots[k].phase != Empty ==> (slots[k].key, slots[k].origin) in l.submitted)
    && (forall k :: 0 <= k < |slots| && slots[k].phase == Done ==>
          Sourced(slots[k].key, slots[k].path, slots[k].origin, l))
    && (forall w :: 0 <= w < |workers| && (workers[w].Resolved? || workers[w].Closed?) && workers[w].slot < |slots| ==>
          Sourced(slots[workers[w].slot].key, workers[w].path, slots[workers[w].slot].origin, l))
  }

  ghost predicate CacheSourced(entries: map<Key, Entry>, l: Ledger) {
    forall k :: k in entries ==> Sourced(k, entries[k].path, entries[k].origin, l)
  }

  ghost predicate Sound(slots: seq<Slot>, workers: seq<Worker>, permits: nat, l: Ledger) {
    && |slots| == SLOTS && |workers| == WORKERS && UniqueKeys(slots) && Balanced(slots, workers, permits)
    && Staffed(slots, workers) && ClosedOnce(slots, l) && SlotsSourced(slots, workers, l)
  }

  // --- Each step keeps the invariants ---

  /** Changing one slot without giving it another key. */
  lemma KeysStayUnique(slots: seq<Slot>, k: nat, s: Slot)
    requires UniqueKeys(slots) && k < |slots|
    requires (s.phase == Empty || (s.key == slots[k].key && slots[k].phase != Empty))
    ensures UniqueKeys(slots[k := s])
  {
  }

  /** Changing one slot without opening or closing a handle. */
  lemma HandlesStay(slots: seq<Slot>, l: Ledger, k: nat, s: Slot)
    requires ClosedOnce(slots, l) && k < |slots| && SlotOwns(s) && s.open == slots[k].open
    requires (s.open ==> s.origin == slots[k].origin)
    ensures ClosedOnce(slots[k := s], l)
  {
  }

  lemma AcquireKeeps(slots: seq<Slot>, workers: seq<Worker>, permits: nat, l: Ledger, w: nat)
    requires Sound(slots, workers, permits, l) && w < |workers| && workers[w] == Waiting && permits > 0
    ensures Sound(slots, workers[w := Acquired], permits - 1, l)
  {
    assert AcquiredWorkers(workers[w := Acquired]) == AcquiredWorkers(workers) + {w};
  }

  /** A worker that took a count finds a queued slot. */
  lemma SomethingQueued(slots: seq<Slot>, workers: seq<Worker>, permits: nat, w: nat)
    requires Balanced(slots, workers, permits) && w < |workers| && workers[w] == Acquired
    ensures exists k :: 0 <= k < |slots| && slots[k].phase == Queued
  {
    assert w in AcquiredWorkers(workers);
    var k :| k in QueuedSlots(slots);
  }

  function Started(s: Slot, now: nat, w: nat): Slot { s.(phase := Running, started := now, worker := w) }

  lemma PickStaffs(slots: seq<Slot>, workers: seq<Worker>, l: Ledger, w: nat, k: nat, now: nat)
    requires Staffed(slots, workers) && SlotsSourced(slots, workers, l) && w < |workers| && workers[w] == Acquired
    requires k < |slots| && slots[k].phase == Queued && slots[k].open
    ensures Staffed(slots[k := Started(slots[k], now, w)], workers[w := Resolving(k)])
    ensures SlotsSourced(slots[k := Started(slots[k], now, w)], workers[w := Resolving(k)], l)
  {
  }

  lemma PickKeeps(slots: seq<Slot>, workers: seq<Worker>, permits: nat, l: Ledger, w: nat, k: nat, now: nat)
    requires Sound(slots, workers, permits, l) && w < |workers| && workers[w] == Acquired && k < |slots|
    requires slots[k].phase == Queued
    ensures Sound(slots[k := Started(slots[k], now, w)], workers[w := Resolving(k)], permits, l)
  {
    var s := Started(slots[k], now, w);
    assert SlotOwns(slots[k]);
    KeysStayUnique(slots, k, s);
    HandlesStay(slots, l, k, s);
    PickStaffs(slots, workers, l, w, k, now);
    assert QueuedSlots(slots[k := s]) == QueuedSlots(slots) - {k};
    assert AcquiredWorkers(workers[w := Resolving(k)]) == AcquiredWorkers(workers) - {w};
  }

  /** The ledger after a handle gave a path. */
  function Learn(l: Ledger, h: Handle, path: Option<Path>): Ledger {
    if path.Some? then l.(resolved := l.resolved + {(h, path.value)}) else l
  }

  lemma ResolveKeeps(slots: seq<Slot>, workers: seq<Worker>, permits: nat, l: Ledger, w: nat, path: Option<Path>)
    requires Sound(slots, workers, permits, l) && w < |workers| && workers[w].Resolving?
    ensures Busy(workers[w]) && workers[w].slot < |slots|
    ensures Sound(slots, workers[w := Resolved(workers[w].slot, path)], permits,
              Learn(l, slots[workers[w].slot].origin, path))
  {
    assert AtWork(slots, workers[w], w);
    assert AcquiredWorkers(workers[w := Resolved(workers[w].slot, path)]) == AcquiredWorkers(workers);
  }

  /** The ledger after an open handle was closed. */
  function Shut(l: Ledger, h: Handle): Ledger {
    l.(held := l.held - {h}, closed := l.closed + multiset{h})
  }

  lemma CloseLedger(slots: seq<Slot>, l: Ledger, k: nat, s: Slot)
    requires ClosedOnce(slots, l) && k < |slots| && slots[k].open && s == slots[k].(open := false) && SlotOwns(s)
    ensures ClosedOnce(slots[k := s], Shut(l, slots[k].origin))
  {
    var h := slots[k].origin;
    assert h in l.held && l.held[h] == k;
  }

  lemma CloseStaffs(slots: seq<Slot>, workers: seq<Worker>, w: nat)
    requires Staffed(slots, workers) && w < |workers| && workers[w].Resolved? && AtWork(slots, workers[w], w)
    ensures Staffed(slots[workers[w].slot := slots[workers[w].slot].(open := false)],
              workers[w := Closed(workers[w].slot, workers[w].path)])
  {
  }

  lemma CloseSourced(slots: seq<Slot>, workers: seq<Worker>, l: Ledger, w: nat, h: Handle)
    requires SlotsSourced(slots, workers, l) && w < |workers| && workers[w].Resolved? && AtWork(slots, workers[w], w)
    ensures SlotsSourced(slots[workers[w].slot := slots[workers[w].slot].(open := false)],
              workers[w := Closed(workers[w].slot, workers[w].path)], Shut(l, h))
  {
  }

  lemma CloseKeeps(slots: seq<Slot>, workers: seq<Worker>, permits: nat, l: Ledger, w: nat)
    requires Sound(slots, workers, permits, l) && w < |workers| && workers[w].Resolved?
    ensures Busy(workers[w]) && AtWork(slots, workers[w], w)
    ensures Sound(slots[workers[w].slot := slots[workers[w].slot].(open := false)],
              workers[w := Closed(workers[w].slot, workers[w].path)], permits,
                  Shut(l, slots[workers[w].slot].origin))
  {
    assert AtWork(slots, workers[w], w);
    var k := workers[w].slot;
    var s := slots[k].(open := false);
    assert SlotOwns(slots[k]);
    KeysStayUnique(slots, k, s);
    CloseLedger(slots, l, k, s);
    CloseStaffs(slots, workers, w);
    CloseSourced(slots, workers, l, w, slots[k].origin);
    assert QueuedSlots(slots[k := s]) == QueuedSlots(slots);
    assert AcquiredWorkers(workers[w := Closed(k, workers[w].path)]) == AcquiredWorkers(workers);
  }

  function Finished(s: Slot, path: Option<Path>): Slot { s.(phase := Done, process := None, path := path) }

  lemma CompleteStaffs(slots: seq<Slot>, workers: seq<Worker>, l: Ledger, w: nat)
    requires Staffed(slots, workers) && SlotsSourced(slots, workers, l) && w < |workers| && workers[w].Closed?
    requires AtWork(slots, workers[w], w)
    ensures Staffed(slots[workers[w].slot := Finished(slots[workers[w].slot], workers[w].path)], workers[w := Waiting])
    ensures SlotsSourced(slots[workers[w].slot := Finished(slots[workers[w].slot], workers[w].path)],
              workers[w := Waiting], l)
  {
  }

  lemma CompleteKeeps(slots: seq<Slot>, workers: seq<Worker>, permits: nat, l: Ledger, w: nat)
    requires Sound(slots, workers, permits, l) && w < |workers| && workers[w].Closed?
    ensures Busy(workers[w]) && AtWork(slots, workers[w], w)
    ensures Sound(slots[workers[w].slot := Finished(slots[workers[w].slot], workers[w].path)], workers[w := Waiting],
              permits, l)
  {
    assert AtWork(slots, workers[w], w);
    var k := workers[w].slot;
    var s := Finished(slots[k], workers[w].path);
    assert SlotOwns(slots[k]);
    KeysStayUnique(slots, k, s);
    HandlesStay(slots, l, k, s);
    CompleteStaffs(slots, workers, l, w);
    assert QueuedSlots(slots[k := s]) == QueuedSlots(slots);
    assert AcquiredWorkers(workers[w := Waiting]) == AcquiredWorkers(workers);
  }

  /** Emptying a finished slot. */
  lemma EmptyKeeps(slots: seq<Slot>, workers: seq<Worker>, permits: nat, l: Ledger, k: nat)
    requires Sound(slots, workers, permits, l) && k < |slots| && slots[k].phase == Done
    ensures Sound(slots[k := slots[k].(phase := Empty)], workers, permits, l)
  {
    var s := slots[k].(phase := Empty);
    assert SlotOwns(slots[k]);
    KeysStayUnique(slots, k, s);
    HandlesStay(slots, l, k, s);
    assert QueuedSlots(slots[k := s]) == QueuedSlots(slots);
  }

  /** The ledger after the consumer opened a handle, after a slot took it over, and after the consumer closed it. */
  function Opened(l: Ledger, h: Handle): Ledger { l.(seen := l.seen + {h}, owned := Some(h)) }

  function Entered(l: Ledger, key: Key, h: Handle, k: nat): Ledger {
    l.(owned := None, held := l.held[h := k], submitted := l.submitted + {(key, h)})
  }

  function Dropped(l: Ledger, h: Handle): Ledger { l.(owned := None, closed := l.closed + multiset{h}) }

  function Submission(key: Key, h: Handle, now: nat, before: Slot): Slot {
    Slot(Queued, key, Some(h), now, before.started, before.path, h, true, before.worker)
  }

  lemma SubmitLedger(slots: seq<Slot>, l: Ledger, k: nat, key: Key, h: Handle, now: nat)
    requires ClosedOnce(slots, l) && k < |slots| && slots[k].phase == Empty && l.owned == Some(h)
    ensures ClosedOnce(slots[k := Submission(key, h, now, slots[k])], Entered(l, key, h, k))
  {
    assert SlotOwns(slots[k]);
  }

  lemma SubmitStaffs(slots: seq<Slot>, workers: seq<Worker>, l: Ledger, k: nat, key: Key, h: Handle, now: nat)
    requires Staffed(slots, workers) && SlotsSourced(slots, workers, l) && k < |slots| && slots[k].phase == Empty
    ensures Staffed(slots[k := Submission(key, h, now, slots[k])], workers)
    ensures SlotsSourced(slots[k := Submission(key, h, now, slots[k])], workers, Entered(l, key, h, k))
  {
  }

  lemma KeysUniqueWithNew(slots: seq<Slot>, k: nat, s: Slot)
    requires UniqueKeys(slots) && k < |slots| && forall i :: 0 <= i < |slots| && slots[i].phase != Empty ==>
               slots[i].key != s.key
    ensures UniqueKeys(slots[k := s])
  {
  }

  lemma SubmitBalances(slots: seq<Slot>, workers: seq<Worker>, permits: nat, k: nat, s: Slot)
    requires Balanced(slots, workers, permits) && k < |slots| && slots[k].phase != Queued && s.phase == Queued
    ensures Balanced(slots[k := s], workers, permits + 1)
  {
    assert QueuedSlots(slots[k := s]) == QueuedSlots(slots) + {k};
  }

  lemma SubmitKeeps(slots: seq<Slot>, workers: seq<Worker>, permits: nat, l: Ledger, k: nat, key: Key, h: Handle,
                    now: nat)
    requires Sound(slots, workers, permits, l) && k < |slots| && slots[k].phase == Empty && l.owned == Some(h)
    requires forall i :: 0 <= i < |slots| && slots[i].phase != Empty ==> slots[i].key != key
    ensures Sound(slots[k := Submission(key, h, now, slots[k])], workers, permits + 1, Entered(l, key, h, k))
  {
    var s := Submission(key, h, now, slots[k]);
    KeysUniqueWithNew(slots, k, s);
    SubmitLedger(slots, l, k, key, h, now);
    SubmitStaffs(slots, workers, l, k, key, h, now);
    SubmitBalances(slots, workers, permits, k, s);
  }

  lemma OpenKeeps(slots: seq<Slot>, workers: seq<Worker>, permits: nat, l: Ledger, h: Handle)
    requires Sound(slots, workers, permits, l) && l.owned.None? && h !in l.seen
    ensures Sound(slots, workers, permits, Opened(l, h))
  {
  }

  lemma DropKeeps(slots: seq<Slot>, workers: seq<Worker>, permits: nat, l: Ledger, h: Handle)
    requires Sound(slots, workers, permits, l) && l.owned == Some(h)
    ensures Sound(slots, workers, permits, Dropped(l, h))
  {
  }

  lemma {:induction false} SmallIndices(s: set<nat>, n: nat)
    requires forall k :: k in s ==> k < n
    ensures |s| <= n
    decreases n
  {
    if n > 0 {
      SmallIndices(s - {n - 1}, n - 1);
      assert |s| <= |s - {n - 1}| + 1;
    } else {
      assert s == {};
    }
  }

  /** The semaphore never holds more than one count per slot, so releasing it cannot fail. */
  lemma PermitsFit(slots: seq<Slot>, workers: seq<Worker>, permits: nat)
    requires |slots| == SLOTS && Balanced(slots, workers, permits)
    ensures permits <= SLOTS
  {
    SmallIndices(QueuedSlots(slots), SLOTS);
  }

  /** Closing the handle of a slot no worker will run. */
  lemma ReleaseLedger(slots: seq<Slot>, l: Ledger, k: nat)
    requires ClosedOnce(slots, l) && k < |slots| && slots[k].phase == Queued && slots[k].process.Some?
    ensures ClosedOnce(slots[k := slots[k].(phase := Empty, process := None, open := false)],
              Shut(l, slots[k].process.value))
  {
    assert SlotOwns(slots[k]);
    var h := slots[k].origin;
    assert h in l.held && l.held[h] == k;
  }

  /** The consumer opens a handle for a key, gives up on a stop, looks the key up, or submits the handle. */
  datatype Action =
    | Open(key: Key)
    | Stop
    | Look(now: nat)
    | Submit(now: nat)
    | Collect(now: nat)
    | Work(worker: nat, now: nat, path: Option<Path>)
    | Leave(worker: nat)

  predicate Overdue(s: Slot, now: nat) { s.phase == Running && now >= s.started && now - s.started >= WAIT }

  lemma CountNext(slots: seq<Slot>, now: nat, k: nat)
    requires k < |slots|
    ensures |RunningSlots(slots[..k + 1])| == |RunningSlots(slots[..k])| + (if slots[k].phase == Running then 1 else 0)
    ensures |OverdueSlots(slots[..k + 1], now)| ==
              |OverdueSlots(slots[..k], now)| + (if Overdue(slots[k], now) then 1 else 0)
  {
    assert RunningSlots(slots[..k + 1]) == RunningSlots(slots[..k]) + (if slots[k].phase == Running then {k} else {});
    assert OverdueSlots(slots[..k + 1], now) ==
      OverdueSlots(slots[..k], now) + (if Overdue(slots[k], now) then {k} else {});
  }

  /** Whether every worker has been on one image for at least the wait. */
  method Stuck(slots: seq<Slot>, now: nat) returns (stuck: bool)
    ensures stuck <==> |RunningSlots(slots)| == WORKERS && |OverdueSlots(slots, now)| == WORKERS
  {
    var running, overdue := 0, 0;
    for k := 0 to |slots|
      invariant running == |RunningSlots(slots[..k])| && overdue == |OverdueSlots(slots[..k], now)|
    {
      CountNext(slots, now, k);
      if slots[k].phase == Running {
        running := running + 1;
        if now >= slots[k].started && now - slots[k].started >= WAIT { overdue := overdue + 1; }
      }
    }
    assert slots[..|slots|] == slots;
    stuck := running == WORKERS && overdue == WORKERS;
  }

  /** The queued slot that was submitted first. */
  method Oldest(slots: seq<Slot>) returns (job: Option<nat>)
    ensures job.Some? ==> job.value < |slots| && slots[job.value].phase == Queued
    ensures forall i :: 0 <= i < |slots| && slots[i].phase == Queued ==>
              job.Some? && slots[job.value].submitted <= slots[i].submitted
  {
    job := None;
    for k := 0 to |slots|
      invariant job.Some? ==> job.value < k && slots[job.value].phase == Queued
      invariant forall i :: 0 <= i < k && slots[i].phase == Queued ==>
                  job.Some? && slots[job.value].submitted <= slots[i].submitted
    {
      if slots[k].phase == Queued && (job.None? || slots[k].submitted < slots[job.value].submitted) { job := Some(k); }
    }
  }

  predicate NoSlot(slots: seq<Slot>, key: Key) {
    forall i :: 0 <= i < |slots| && slots[i].phase != Empty ==> slots[i].key != key
  }

  /** Every worker is overdue, or no slot is empty. */
  predicate NoRoom(slots: seq<Slot>, now: nat) {
    || (|RunningSlots(slots)| == WORKERS && |OverdueSlots(slots, now)| == WORKERS)
    || forall k :: 0 <= k < |slots| ==> slots[k].phase != Empty
  }

  class Pool {
    var slots: seq<Slot>
    var workers: seq<Worker>
    var permits: nat
    const cache: Cache
    var asking: Option<(Key, Handle)>  // What the consumer has in hand.
    ghost var ledger: Ledger

    ghost predicate Valid() reads this, cache {
      && Sound(slots, workers, permits, ledger) && cache.Valid() && CacheSourced(cache.entries, ledger)
      && ledger.owned == if asking.Some? then Some(asking.value.1) else None
    }

    constructor ()
      ensures Valid() && fresh(cache) && ledger == Ledger({}, None, map[], multiset{}, {}, {}) && cache.recent == []
    {
      var blank := Slot(Empty, Key(0, 0), None, 0, 0, None, 0, false, 0);
      slots := seq(SLOTS, _ => blank);
      workers := seq(WORKERS, _ => Waiting);
      permits := 0;
      cache := new Cache();
      asking := None;
      ledger := Ledger({}, None, map[], multiset{}, {}, {});
      new;
      assert AcquiredWorkers(workers) == {} && QueuedSlots(slots) == {};
    }

    // --- Workers ---

    /** Take one semaphore count. */
    method Acquire(w: nat)
      requires Valid() && w < WORKERS && workers[w] == Waiting && permits > 0
      modifies `workers, `permits
      ensures Valid()
    {
      AcquireKeeps(slots, workers, permits, ledger, w);
      workers := workers[w := Acquired];
      permits := permits - 1;
    }

    /** Start the oldest queued slot; there always is one. */
    method Pick(w: nat, now: nat)
      requires Valid() && w < WORKERS && workers[w] == Acquired
      modifies `workers, `slots
      ensures Valid() && workers[w].Resolving?
      ensures old(slots)[workers[w].slot].phase == Queued
      ensures forall k :: 0 <= k < SLOTS && old(slots)[k].phase == Queued ==>
                old(slots)[workers[w].slot].submitted <= old(slots)[k].submitted
    {
      var job := Oldest(slots);
      SomethingQueued(slots, workers, permits, w);
      PickKeeps(slots, workers, permits, ledger, w, job.value, now);
      slots := slots[job.value := Started(slots[job.value], now, w)];
      workers := workers[w := Resolving(job.value)];
    }

    /** Resolve the image of the slot's process, outside the lock. */
    method Resolve(w: nat, path: Option<Path>)
      requires Valid() && w < WORKERS && workers[w].Resolving?
      modifies `workers, `ledger
      ensures Valid() && workers[w] == Resolved(old(workers)[w].slot, path)
      ensures slots[old(workers)[w].slot].process.Some?
      ensures ledger == Learn(old(ledger), slots[old(workers)[w].slot].process.value, path)
    {
      ResolveKeeps(slots, workers, permits, ledger, w, path);
      assert SlotOwns(slots[workers[w].slot]);
      ledger := Learn(ledger, slots[workers[w].slot].process.value, path);
      workers := workers[w := Resolved(workers[w].slot, path)];
    }

    /** Close the process handle, outside the lock; it was open until now. */
    method Close(w: nat)
      requires Valid() && w < WORKERS && workers[w].Resolved?
      modifies `workers, `slots, `ledger
      ensures Valid() && workers[w] == Closed(old(workers)[w].slot, old(workers)[w].path)
      ensures old(slots)[old(workers)[w].slot].process.Some?
      ensures var h := old(slots)[old(workers)[w].slot].process.value;
              ledger == Shut(old(ledger), h) && h in old(ledger).held && old(ledger).closed[h] == 0
    {
      CloseKeeps(slots, workers, permits, ledger, w);
      var k := workers[w].slot;
      assert SlotOwns(slots[k]);
      ghost var h := slots[k].process.value;
      assert h in ledger.held;
      ledger := Shut(ledger, h);
      slots := slots[k := slots[k].(open := false)];
      workers := workers[w := Closed(k, workers[w].path)];
    }

    /** Leave the path in the slot. */
    method Complete(w: nat)
      requires Valid() && w < WORKERS && workers[w].Closed?
      modifies `workers, `slots
      ensures Valid()
    {
      CompleteKeeps(slots, workers, permits, ledger, w);
      var k := workers[w].slot;
      slots := slots[k := Finished(slots[k], workers[w].path)];
      workers := workers[w := Waiting];
    }

    // --- The consumer ---

    /** Move every finished slot into the cache. */
    method Harvest(now: nat)
      requires Valid()
      modifies `slots, cache
      ensures Valid()
      ensures forall k :: 0 <= k < SLOTS ==> slots[k].phase != Done
    {
      for k := 0 to SLOTS
        invariant Valid()
        invariant forall i :: 0 <= i < k ==> slots[i].phase != Done
      {
        if slots[k].phase == Done {
          var s := slots[k];
          cache.Insert(s.key, Entry(s.path, if s.path.None? then Some(now + UNAVAILABLE_LIFETIME) else None, s.origin));
          EmptyKeeps(slots, workers, permits, ledger, k);
          slots := slots[k := s.(phase := Empty)];
        }
      }
    }

    /** Open a process: the consumer now owns the handle. */
    method OpenProcess(key: Key, process: Handle)
      requires Valid() && asking.None? && process !in ledger.seen
      modifies `asking, `ledger
      ensures Valid() && asking == Some((key, process)) && ledger == Opened(old(ledger), process)
    {
      OpenKeeps(slots, workers, permits, ledger, process);
      ledger := Opened(ledger, process);
      asking := Some((key, process));
    }

    /** Close the handle in hand. */
    method CloseOwned()
      requires Valid() && asking.Some?
      modifies `asking, `ledger
      ensures Valid() && asking.None? && ledger == Dropped(old(ledger), old(asking).value.1)
      ensures old(ledger).closed[old(asking).value.1] == 0
    {
      DropKeeps(slots, workers, permits, ledger, asking.value.1);
      ledger := Dropped(ledger, asking.value.1);
      asking := None;
    }

    /** Look the key in hand up in the cache: a path found was resolved from a handle submitted under this key, and
        the handle in hand is closed exactly on a hit. */
    method Lookup(now: nat) returns (found: Option<Entry>)
      requires Valid() && asking.Some?
      modifies `asking, `ledger, cache
      ensures Valid() && ledger == if found.Some? then Dropped(old(ledger), old(asking).value.1) else old(ledger)
      ensures asking == if found.Some? then None else old(asking)
      ensures found.Some? && found.value.path.Some? ==>
                (old(asking).value.0, found.value.origin) in ledger.submitted &&
                (found.value.origin, found.value.path.value) in ledger.resolved
    {
      found := cache.Lookup(asking.value.0, now);
      if found.Some? { CloseOwned(); }
    }

    /** The slot of a key, if it has one. */
    method Find(key: Key) returns (job: Option<nat>)
      requires Valid()
      ensures job.Some? ==> job.value < SLOTS && slots[job.value].phase != Empty && slots[job.value].key == key
      ensures job.None? <==> NoSlot(slots, key)
    {
      for k := 0 to SLOTS
        invariant forall i :: 0 <= i < k && slots[i].phase != Empty ==> slots[i].key != key
      {
        if slots[k].phase != Empty && slots[k].key == key { return Some(k); }
      }
      job := None;
    }

    /** An empty slot, unless the workers are stuck. */
    method Room(now: nat) returns (job: Option<nat>)
      requires Valid()
      ensures job.Some? ==> job.value < SLOTS && slots[job.value].phase == Empty
      ensures job.None? <==> NoRoom(slots, now)
    {
      job := None;
      var stuck := Stuck(slots, now);
      if stuck { return; }
      for k := 0 to SLOTS
        invariant forall i :: 0 <= i < k ==> slots[i].phase != Empty
      {
        if slots[k].phase == Empty { return Some(k); }
      }
    }

    /** Submit the handle in hand, or close it if its key already has a slot or there is no room. */
    method SubmitOrJoin(now: nat) returns (job: Option<nat>)
      requires Valid() && asking.Some?
      modifies `slots, `permits, `asking, `ledger
      ensures Valid() && asking.None? && ledger.seen == old(ledger).seen
      ensures var (key, process) := old(asking).value;
              && ledger.closed[process] == (if process in ledger.held then 0 else 1)
              && (job.Some? ==> job.value < SLOTS && slots[job.value].phase != Empty && slots[job.value].key == key)
              && (job.None? <==> NoSlot(old(slots), key) && NoRoom(old(slots), now))
              && (process in ledger.held <==> NoSlot(old(slots), key) && !NoRoom(old(slots), now))
    {
      var (key, process) := asking.value;
      job := Find(key);
      if job.None? {
        job := Room(now);
        if job.Some? {
          var k := job.value;
          SubmitKeeps(slots, workers, permits, ledger, k, key, process, now);
          slots := slots[k := Submission(key, process, now, slots[k])];
          permits := permits + 1;
          ledger := Entered(ledger, key, process, k);
          asking := None;
          return;
        }
      }
      CloseOwned();
    }

    // --- Shutdown ---

    /** A waiting worker leaves when the pool stops. */
    method Depart(w: nat)
      requires Valid() && w < WORKERS && workers[w] == Waiting
      modifies `workers
      ensures Valid()
    {
      assert AcquiredWorkers(workers[w := Left]) == AcquiredWorkers(workers);
      workers := workers[w := Left];
    }

    /** The last owner destroys the slots, closing the handles still queued: now each handle has been closed once. */
    method Destroy()
      requires Valid() && asking.None? && forall w :: 0 <= w < WORKERS ==> workers[w] == Left
      modifies `slots, `ledger
      ensures ledger.seen == old(ledger).seen && forall h :: ledger.closed[h] == if h in ledger.seen then 1 else 0
    {
      assert forall k :: 0 <= k < SLOTS && slots[k].phase == Running ==> Attended(workers, slots[k].worker, k);
      for k := 0 to SLOTS
        invariant |slots| == SLOTS && ledger.seen == old(ledger).seen && ledger.owned.None? && ClosedOnce(slots, ledger)
        invariant forall i :: 0 <= i < SLOTS ==> slots[i].phase != Running
        invariant forall i :: 0 <= i < k ==> !slots[i].open
      {
        assert SlotOwns(slots[k]);
        if slots[k].process.Some? {
          ReleaseLedger(slots, ledger, k);
          ledger := Shut(ledger, slots[k].process.value);
          slots := slots[k := slots[k].(phase := Empty, process := None, open := false)];
        }
      }
    }

    /** The next step of a worker. */
    method Advance(w: nat, now: nat, path: Option<Path>)
      requires Valid() && w < WORKERS
      modifies `slots, `workers, `permits, `ledger
      ensures Valid() && ledger.seen == old(ledger).seen
    {
      match workers[w]
      case Waiting => if permits > 0 { Acquire(w); }
      case Acquired => Pick(w, now);
      case Resolving(_) => Resolve(w, path);
      case Resolved(_, _) => Close(w);
      case Closed(_, _) => Complete(w);
      case Left =>
    }

    /** Every interleaving of the consumer, which opens a new handle each time, and the workers: each handle opened is
        the consumer's, or open in a slot, or has been closed exactly once. */
    method Run(schedule: seq<Action>, first: Handle)
      requires Valid() && forall h :: h in ledger.seen ==> h < first
      modifies this, cache
      ensures Valid()
      ensures forall h :: ledger.closed[h] ==
                if h in ledger.seen && h !in ledger.held && ledger.owned != Some(h) then 1 else 0
    {
      var process := first;
      for n := 0 to |schedule|
        invariant Valid() && forall h :: h in ledger.seen ==> h < process
      {
        match schedule[n]
        case Open(key) => if asking.None? { OpenProcess(key, process); process := process + 1; }
        case Stop => if asking.Some? { CloseOwned(); }
        case Look(now) => if asking.Some? { var found := Lookup(now); }
        case Submit(now) => if asking.Some? { var job := SubmitOrJoin(now); }
        case Collect(now) => Harvest(now);
        case Work(w, now, path) => if w < WORKERS { Advance(w, now, path); }
        case Leave(w) => if w < WORKERS && workers[w] == Waiting { Depart(w); }
      }
    }
  }
}
