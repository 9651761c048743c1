/** Three concrete runs that show the conditions of the "no role" cache results are needed. Inode 0 starts at
    name 10 and is renamed to name 20 by operation 0. */
module NegativeRoleGaps {
  import opened Options
  import opened NegativeRoles

  lemma Go(w: World, cache: map<Inode, Basis>, m: Move, next: World)
    requires Reachable(State(w, cache, map[])) && CanMove(w, m) && Moved(w, m) == next
    ensures Reachable(State(next, cache, map[]))
  {
    ReachWorld(State(w, cache, map[]), m);
  }

  function Initial(slots: set<Name>): World { World(0, 0, map[0 := 10], slots, {}, map[], {}) }

  lemma InitialIsReachable(slots: set<Name>)
    ensures Reachable(State(Initial(slots), map[], map[]))
  {
    assert Run([State(Initial(slots), map[], map[])]);
  }

  // --- An enrolment that overtakes a rename ---

  const MOVING := Rename(map[0 := 20], {0}, {}, {}, false, Running, 0)
  const MOVED := Rename(map[0 := 20], {0}, {}, {}, false, Returned, 0)

  /** Name 20 is enrolled while a rename to it is past its hook. */
  const OVERTAKEN := World(0, 2, map[0 := 10], {20}, {}, map[0 := MOVING, 1 := Enrolment(20, Returned, 2)], {0})

  lemma HookedIsReachable()
    ensures Reachable(State(Initial({}).(ops := map[0 := MOVING]), map[], map[]))
  {
    InitialIsReachable({});
    var w := Initial({});
    var begun := w.(ops := map[0 := MOVING.(hooked := {})]);
    Go(w, map[], BeginRename(0, map[0 := 20]), begun);
    assert begun.ops[0].hooked + {0} == {0} && begun.ops[0 := MOVING] == map[0 := MOVING];
    Go(begun, map[], Hook(0, 0), w.(ops := map[0 := MOVING]));
  }

  const ADDED := OVERTAKEN.(epoch := 1, ops := map[0 := MOVING, 1 := Enrolment(20, Complete, 0)])

  lemma AddedIsReachable()
    ensures Reachable(State(ADDED, map[], map[]))
  {
    HookedIsReachable();
    var w := Initial({}).(ops := map[0 := MOVING]);
    var begun := w.(epoch := 1, ops := map[0 := MOVING, 1 := Enrolment(20, Running, 0)]);
    Go(w, map[], BeginEnrol(1, 20), begun);
    assert PassedInodes(begun.ops, 20) == {0} by { assert PassedBy(begun.ops[0], 0, 20); }
    Go(begun, map[], AddSlot(1), ADDED);
  }

  lemma OvertakenIsReachable()
    ensures Reachable(State(OVERTAKEN, map[], map[]))
  {
    AddedIsReachable();
    var bumped := OVERTAKEN.(ops := map[0 := MOVING, 1 := Enrolment(20, Bumped, 2)]);
    Go(ADDED, map[], Bump(1), bumped);
    assert bumped.ops[1 := Enrolment(20, Returned, 2)] == OVERTAKEN.ops;
    Go(bumped, map[], Return(1), OVERTAKEN);
  }

  /** A whole lookup of inode 0 that nothing disturbs caches "no role". */
  lemma QuietLookupCaches(w: World)
    requires Reachable(State(w, map[], map[])) && 0 in w.names && w.names[0] !in w.slots && 0 !in w.labelled
    requires !IsHeld(w, 0) && w.epoch % 2 == 0
    ensures Reachable(State(w, map[0 := Basis(w.epoch, w.generation, CompleteOps(w.ops), w.names[0])], map[]))
  {
    ReachBegun(State(w, map[], map[]), 0, 0);
    var s := State(w, map[], map[0 := NewLookup(w, 0).(pc := PastLabel)]);
    ReachPastHeld(s, 0);
    assert With(s, 0, PastHeld) == s.(lookups := s.lookups[0 := s.lookups[0].(pc := PastHeld, late := false)]);
    ReachChecked(s, 0);
    ReachCached(s, 0);
    assert s.lookups - {0} == map[];
  }

  /** A whole lookup of inode 0 that nothing disturbs hits a cached entry with the current stamp. */
  lemma QuietLookupHits(w: World, b: Basis)
    requires Reachable(State(w, map[0 := b], map[])) && 0 in w.names && 0 !in w.labelled
    requires !IsHeld(w, 0) && w.epoch % 2 == 0 && b.epoch == w.epoch && b.generation == w.generation
    ensures Reachable(State(w, map[0 := b], map[0 := NewLookup(w, 0).(pc := CacheHit(b))]))
  {
    ReachBegun(State(w, map[0 := b], map[]), 0, 0);
    var s := State(w, map[0 := b], map[0 := NewLookup(w, 0).(pc := PastLabel)]);
    ReachPastHeld(s, 0);
    assert With(s, 0, PastHeld) == s.(lookups := s.lookups[0 := s.lookups[0].(pc := PastHeld, late := false)]);
    ReachChecked(s, 0);
    ReachPC(s, 0, Checked(w.epoch, w.generation, true), CacheHit(b));
    assert With(s, 0, CacheHit(b)) == State(w, map[0 := b], map[0 := NewLookup(w, 0).(pc := CacheHit(b))]);
  }

  const MISSED := Basis(2, 0, {1}, 10)
  const SETTLED := OVERTAKEN.(names := map[0 := 20], ops := map[0 := MOVED, 1 := Enrolment(20, Returned, 2)])

  /** The rename ends with its destination enrolled and the old answer still cached. */
  lemma SettledIsReachable()
    ensures Reachable(State(SETTLED, map[0 := MISSED], map[]))
  {
    OvertakenIsReachable();
    QuietLookupCaches(OVERTAKEN);
    assert CompleteOps(OVERTAKEN.ops) == {1};
    var swapped := SETTLED.(ops := map[0 := At(MOVED, Complete, 0), 1 := Enrolment(20, Returned, 2)]);
    assert OVERTAKEN.names + map[0 := 20] == map[0 := 20];
    Go(OVERTAKEN, map[0 := MISSED], Swap(0), swapped);
    Go(swapped, map[0 := MISSED], Return(0), SETTLED);
  }

  /** For an overtaken inode the cache is not exact: with no operation in progress, a lookup of an inode that has
      been in a slot throughout is answered "no role" from the cache. */
  lemma OvertakingEnrolmentIsMissed() returns (s: State)
    ensures Reachable(s) && s.world.overtaken == {0}
    ensures 0 in s.lookups && s.lookups[0].pc.CacheHit? && !s.lookups[0].overlapped && s.lookups[0].always
  {
    SettledIsReachable();
    QuietLookupHits(SETTLED, MISSED);
    s := State(SETTLED, map[0 := MISSED], map[0 := NewLookup(SETTLED, 0).(pc := CacheHit(MISSED))]);
  }

  // --- A lookup that reads the held roles too late ---

  const BEGUN := Rename(map[0 := 20], {}, {}, {}, false, Running, 0)
  const ADVANCED := Rename(map[0 := 20], {0}, {0}, {}, false, Running, 0)
  const HOLDING := Rename(map[0 := 20], {0}, {0}, {0}, true, Running, 0)
  const RENAMED := Rename(map[0 := 20], {0}, {0}, {0}, true, Complete, 0)
  const RELEASED := Rename(map[0 := 20], {0}, {0}, {}, true, Complete, 0)

  function During(name: Name, generation: nat, o: Op): World {
    World(generation, 0, map[0 := name], {20}, {}, map[0 := o], {})
  }

  /** A lookup that read the held roles before the hold caches "no role" under the advanced generation. */
  lemma StaleEntryIsReachable()
    ensures Reachable(State(During(10, 1, ADVANCED), map[0 := Basis(0, 1, {}, 10)], map[]))
  {
    InitialIsReachable({20});
    var w := Initial({20});
    ReachBegun(State(w, map[], map[]), 0, 0);
    var x := NewLookup(w, 0).(pc := PastLabel);
    ReachPastHeld(State(w, map[], map[0 := x]), 0);
    var lookups := map[0 := x.(pc := PastHeld)];
    assert map[0 := x][0 := x.(pc := PastHeld, late := false)] == lookups;
    ReachWorld(State(w, map[], lookups), BeginRename(0, map[0 := 20]));
    assert Moved(w, BeginRename(0, map[0 := 20])) == During(10, 0, BEGUN);
    HookAdvances();
    ReachWorld(State(During(10, 0, BEGUN), map[], lookups), Hook(0, 0));
    var s := State(During(10, 1, ADVANCED), map[], lookups);
    assert With(s, 0, PastHeld) == s;
    ReachChecked(s, 0);
    ReachCached(s, 0);
    assert CompleteOps(s.world.ops) == {} && lookups - {0} == map[];
  }

  lemma HookAdvances()
    ensures CanMove(During(10, 0, BEGUN), Hook(0, 0))
    ensures Moved(During(10, 0, BEGUN), Hook(0, 0)) == During(10, 1, ADVANCED)
  {
    assert BEGUN.hooked + {0} == {0} && BEGUN.entering + {0} == {0};
    assert map[0 := BEGUN][0 := ADVANCED] == map[0 := ADVANCED];
  }

  lemma RenameProceeds()
    ensures var w := During(10, 1, ADVANCED); CanMove(w, Hold(0, 0)) && Moved(w, Hold(0, 0)) == During(10, 1, HOLDING)
    ensures var w := During(10, 1, HOLDING); CanMove(w, Swap(0)) && Moved(w, Swap(0)) == During(20, 1, RENAMED)
    ensures var w := During(20, 1, RENAMED);
            CanMove(w, Release(0, 0)) && Moved(w, Release(0, 0)) == During(20, 1, RELEASED)
  {
    assert ADVANCED.holding + {0} == {0} && RENAMED.holding - {0} == {};
    assert map[0 := ADVANCED][0 := HOLDING] == map[0 := HOLDING];
    assert map[0 := HOLDING][0 := RENAMED] == map[0 := RENAMED];
    assert map[0 := RENAMED][0 := RELEASED] == map[0 := RELEASED];
    assert map[0 := 10] + map[0 := 20] == map[0 := 20];
  }

  const STALE := map[0 := Basis(0, 1, {}, 10)]

  /** A lookup begins while the role is held, and the rename ends before the lookup reads the held roles. */
  lemma OvertakenLookupIsReachable() returns (x: Lookup)
    ensures x == NewLookup(During(10, 1, HOLDING), 0).(pc := PastLabel)
    ensures Reachable(State(During(20, 1, RELEASED), STALE, map[0 := x]))
  {
    StaleEntryIsReachable();
    RenameProceeds();
    Go(During(10, 1, ADVANCED), STALE, Hold(0, 0), During(10, 1, HOLDING));
    ReachBegun(State(During(10, 1, HOLDING), STALE, map[]), 0, 0);
    x := NewLookup(During(10, 1, HOLDING), 0).(pc := PastLabel);
    ReachWorld(State(During(10, 1, HOLDING), STALE, map[0 := x]), Swap(0));
    ReachWorld(State(During(20, 1, RENAMED), STALE, map[0 := x]), Release(0, 0));
  }

  /** Beginning between hold and release is not enough: a lookup that reads the held roles after the release is
      answered "no role" from the cache although the rename has put its inode in a slot. */
  lemma LateHeldReadMissesRename() returns (s: State)
    ensures Reachable(s) && s.world.overtaken == {} && InSlot(s.world, 0)
    ensures 0 in s.lookups && s.lookups[0].holder.Some? && s.lookups[0].late && s.lookups[0].pc.CacheHit?
  {
    var x := OvertakenLookupIsReachable();
    assert Holding(During(10, 1, HOLDING), 0, 0);
    var released := State(During(20, 1, RELEASED), STALE, map[0 := x]);
    ReachPastHeld(released, 0);
    var late := released.(lookups := map[0 := x.(late := true)]);
    assert With(late, 0, PastHeld) == released.(lookups := map[0 := x][0 := x.(pc := PastHeld, late := true)]);
    ReachChecked(late, 0);
    ReachPC(late, 0, Checked(0, 1, true), CacheHit(STALE[0]));
    s := With(late, 0, CacheHit(STALE[0]));
  }

  // --- A lookup between a rename's release and its second advance ---

  /** Nor is a hit exact while a rename of the inode has released its hold and not yet advanced the generation again:
      with nothing overtaken and nothing held, a lookup of an inode that is in a slot throughout is answered
      "no role" from an entry cached between the hook's advance and the hold. */
  lemma UnsettledRenameIsMissed() returns (s: State)
    ensures Reachable(s) && s.world.overtaken == {} && 0 in s.lookups && s.lookups[0].pc.CacheHit?
    ensures s.lookups[0].always && s.lookups[0].overlapped && s.lookups[0].holder.None?
  {
    StaleEntryIsReachable();
    RenameProceeds();
    Go(During(10, 1, ADVANCED), STALE, Hold(0, 0), During(10, 1, HOLDING));
    Go(During(10, 1, HOLDING), STALE, Swap(0), During(20, 1, RENAMED));
    Go(During(20, 1, RENAMED), STALE, Release(0, 0), During(20, 1, RELEASED));
    var w := During(20, 1, RELEASED);
    QuietLookupHits(w, STALE[0]);
    s := State(w, STALE, map[0 := NewLookup(w, 0).(pc := CacheHit(STALE[0]))]);
    assert w.ops[0].held;
  }
}
