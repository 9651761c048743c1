/** The resolver guard's "no role" cache for single-link inodes whose role comes from the slot map alone.

    The guard is settled. A rename's hook looks its destination up in the slot map; if it is a slot, the hook
    advances the generation and holds the destination role until the rename completes, and the completion
    program releases the hold and advances the generation again. An enrolment makes the configuration epoch
    odd, adds a slot and makes it even. A lookup consults the committed label, the held roles and the cache, in
    that order, and otherwise reads the name and then the slot map. Binds and owner changes advance the generation
    without changing a name. Each access is its own step. An enrolment killed midway is one that never goes on. */
module NegativeRoles {
  import opened Options

  type Inode = nat
  type Name = nat

  datatype Phase = Running | Complete | Bumped | Returned

  /** An exchange moves two inodes. `hooked` inodes have passed the hook, `entering` ones found a slot there,
      `holding` are the roles held now and `held` says one was held at some time. */
  datatype Op =
    | Rename(moves: map<Inode, Name>, hooked: set<Inode>, entering: set<Inode>, holding: set<Inode>, held: bool,
             phase: Phase, bump: nat)
    | Enrolment(slot: Name, phase: Phase, bump: nat)

  /** `overtaken` are the inodes whose rename was already past its hook when an enrolment added its destination. */
  datatype World = World(generation: nat, epoch: nat, names: map<Inode, Name>, slots: set<Name>,
                         labelled: set<Inode>, ops: map<nat, Op>, overtaken: set<Inode>)

  /** What an answer rests on: the counters read, the operations complete when it began, the name it read. */
  datatype Basis = Basis(epoch: nat, generation: nat, seen: set<nat>, name: Name)

  datatype PC =
    | Begun
    | PastLabel
    | PastHeld
    | HasEpoch(epoch: nat)
    | HasGeneration(generation: nat)
    | HasStamp(epoch: nat, generation: nat)
    | Checked(epoch: nat, generation: nat, stable: bool)
    | Missed(epoch: nat, generation: nat, stable: bool)
    | Computing(stable: bool, basis: Basis)
    | NoRole(stable: bool, basis: Basis)
    | Answer(role: bool)
    | CacheHit(basis: Basis)

  /** A lookup. `began` are the tracked operations that had advanced their counter when it began and `adding` the
      enrolments that had their slot in place but not yet advanced theirs; `overlapped` says a rename of this inode
      was then complete but had not yet advanced the generation again; `always` that the inode has been in a slot at
      every instant since, `holder` a rename that held its role then, and `late` that it read the held roles after
      that hold ended. */
  datatype Lookup = Lookup(inode: Inode, began: set<nat>, adding: set<nat>, epochThen: nat, generationThen: nat,
                           overlapped: bool, always: bool, holder: Option<nat>, late: bool, pc: PC)

  datatype State = State(world: World, cache: map<Inode, Basis>, lookups: map<nat, Lookup>)

  /** The operations the cache must notice: enrolments, and renames that held a role. */
  predicate Tracked(o: Op) { o.Enrolment? || o.held }

  predicate InSlot(w: World, i: Inode) { i in w.names && w.names[i] in w.slots }

  function CompleteOps(ops: map<nat, Op>): set<nat> { set o | o in ops && ops[o].phase != Running }

  /** The operation can move this inode into a slot. */
  predicate Affects(o: Op, i: Inode) { o.Enrolment? || i in o.moves }

  /** The tracked operations that have advanced their counter. */
  function BumpedOps(ops: map<nat, Op>): set<nat> { set o | o in ops && Tracked(ops[o]) && HasBumped(ops[o]) }

  /** The enrolments whose slot is in place but whose epoch is still odd. */
  function AddingOps(ops: map<nat, Op>): set<nat> { set o | o in ops && ops[o].Enrolment? && ops[o].phase == Complete }

  /** A rename of the inode is complete and has released its hold or is about to, but has not advanced the
      generation again. */
  predicate Unsettled(ops: map<nat, Op>, i: Inode) {
    exists o :: o in ops && ops[o].Rename? && ops[o].held && ops[o].phase == Complete && i in ops[o].moves
  }

  // --- Renames and enrolments ---

  datatype Move =
    | BeginRename(op: nat, moves: map<Inode, Name>)
    | Hook(op: nat, inode: Inode)
    | Hold(op: nat, inode: Inode)
    | Swap(op: nat)
    | Fail(op: nat)
    | Release(op: nat, inode: Inode)
    | Bump(op: nat)
    | Return(op: nat)
    | BeginEnrol(op: nat, slot: Name)
    | AddSlot(op: nat)
    | Invalidate

  predicate IsRename(w: World, op: nat, phase: Phase) { op in w.ops && w.ops[op].Rename? && w.ops[op].phase == phase }

  predicate IsEnrolment(w: World, op: nat, phase: Phase) {
    op in w.ops && w.ops[op].Enrolment? && w.ops[op].phase == phase
  }

  /** The directory locks keep two renames of one inode apart. */
  predicate Free(w: World, i: Inode) {
    forall o :: o in w.ops && w.ops[o].Rename? && w.ops[o].phase != Returned ==> i !in w.ops[o].moves
  }

  predicate Enrolling(w: World) { exists o :: o in w.ops && w.ops[o].Enrolment? && w.ops[o].phase != Returned }

  predicate CanMove(w: World, m: Move) {
    match m
    case BeginRename(op, moves) => op !in w.ops && moves.Keys <= w.names.Keys && forall i :: i in moves ==> Free(w, i)
    case Hook(op, i) => IsRename(w, op, Running) && i in w.ops[op].moves && i !in w.ops[op].hooked
    case Hold(op, i) => IsRename(w, op, Running) && i in w.ops[op].entering && i !in w.ops[op].holding
    case Swap(op) =>
      IsRename(w, op, Running) && w.ops[op].hooked == w.ops[op].moves.Keys && w.ops[op].entering <= w.ops[op].holding
    case Fail(op) => IsRename(w, op, Running) || IsEnrolment(w, op, Running)
    case Release(op, i) => IsRename(w, op, Complete) && i in w.ops[op].holding
    case Bump(op) => (IsRename(w, op, Complete) && w.ops[op].holding == {} && w.ops[op].held) ||
      IsEnrolment(w, op, Complete)
    case Return(op) =>
      IsRename(w, op, Bumped) || IsEnrolment(w, op, Bumped) ||
      (IsRename(w, op, Complete) && w.ops[op].holding == {} && !w.ops[op].held)
    case BeginEnrol(op, _) => op !in w.ops && !Enrolling(w) && w.epoch % 2 == 0
    case AddSlot(op) => IsEnrolment(w, op, Running)
    case Invalidate => true
  }

  /** A rename in progress has passed its hook for this inode and `slot` without finding it enrolled. */
  predicate PassedBy(o: Op, i: Inode, slot: Name) {
    o.Rename? && o.phase == Running && i in o.hooked && i in o.moves && i !in o.entering && o.moves[i] == slot
  }

  function PassedInodes(ops: map<nat, Op>, slot: Name): set<Inode> {
    set o, i | o in ops && ops[o].Rename? && i in ops[o].hooked && PassedBy(ops[o], i, slot) :: i
  }

  function At(o: Op, phase: Phase, bump: nat): Op {
    match o
    case Rename(moves, hooked, entering, holding, held, _, _) =>
      Rename(moves, hooked, entering, holding, held, phase, bump)
    case Enrolment(slot, _, _) => Enrolment(slot, phase, bump)
  }

  function Put(w: World, op: nat, o: Op): World { w.(ops := w.ops[op := o]) }

  function Moved(w: World, m: Move): World
    requires CanMove(w, m)
  {
    match m
    case BeginRename(op, moves) => Put(w, op, Rename(moves, {}, {}, {}, false, Running, 0))
    case Hook(op, i) =>
      var o := w.ops[op];
      var committed := w.(labelled := if InSlot(w, i) then w.labelled + {i} else w.labelled);
      if o.moves[i] in w.slots
      then Put(committed.(generation := w.generation + 1), op,
        o.(hooked := o.hooked + {i}, entering := o.entering + {i}))
      else Put(committed, op, o.(hooked := o.hooked + {i}))
    case Hold(op, i) => Put(w, op, w.ops[op].(holding := w.ops[op].holding + {i}, held := true))
    case Swap(op) => Put(w.(names := w.names + w.ops[op].moves), op, At(w.ops[op], Complete, 0))
    case Fail(op) => Put(w, op, At(w.ops[op], Complete, 0))
    case Release(op, i) => Put(w, op, w.ops[op].(holding := w.ops[op].holding - {i}))
    case Bump(op) =>
      if w.ops[op].Enrolment?
      then Put(w.(epoch := w.epoch + 1), op, At(w.ops[op], Bumped, w.epoch + 1))
      else Put(w.(generation := w.generation + 1), op, At(w.ops[op], Bumped, w.generation + 1))
    case Return(op) => Put(w, op, At(w.ops[op], Returned, w.ops[op].bump))
    case BeginEnrol(op, slot) => Put(w.(epoch := w.epoch + 1), op, Enrolment(slot, Running, 0))
    case AddSlot(op) =>
      var slot := w.ops[op].slot;
      Put(w.(slots := w.slots + {slot}, overtaken := w.overtaken + PassedInodes(w.ops, slot)),
          op, At(w.ops[op], Complete, 0))
    case Invalidate => w.(generation := w.generation + 1)
  }

  predicate HasBumped(o: Op) { o.phase == Bumped || o.phase == Returned }

  predicate GoodOp(w: World, o: Op) {
    match o
    case Enrolment(_, _, bump) => HasBumped(o) ==> bump <= w.epoch
    case Rename(moves, hooked, entering, holding, held, _, bump) =>
      && (HasBumped(o) && held ==> bump <= w.generation)
      && holding <= entering <= hooked <= moves.Keys && (holding != {} ==> held)
      && (o.phase == Running ==>
            forall i :: i in hooked && i !in entering && i !in w.overtaken ==> moves[i] !in w.slots)
  }

  predicate Enrols(o: Op) { o.Enrolment? && !HasBumped(o) }

  /** An enrolment that has not advanced the epoch again leaves it odd, and is alone. */
  predicate OddWhileEnrolling(w: World) {
    && (forall o :: o in w.ops && Enrols(w.ops[o]) ==> w.epoch % 2 == 1)
    && (forall o, p :: o in w.ops && p in w.ops && Enrols(w.ops[o]) && Enrols(w.ops[p]) ==> o == p)
  }

  predicate GoodOps(w: World) { forall o :: o in w.ops ==> GoodOp(w, w.ops[o]) }

  predicate GoodWorld(w: World) { GoodOps(w) && OddWhileEnrolling(w) }

  predicate OpProgress(w: World, o: Op, o': Op) {
    && o'.Rename? == o.Rename? && (o.Rename? ==> o'.moves == o.moves)
    && (o.phase != Running ==> o'.phase != Running && Tracked(o') == Tracked(o))
    && (o.phase == Returned ==> o' == o)
    && (Tracked(o) ==> Tracked(o'))
    && (HasBumped(o) ==> HasBumped(o') && o'.bump == o.bump)
    && (!HasBumped(o) && HasBumped(o') && Tracked(o') ==> (if o.Rename? then w.generation else w.epoch) < o'.bump)
  }

  predicate Progress(w: World, w': World) {
    && w.generation <= w'.generation && w.epoch <= w'.epoch && w.slots <= w'.slots
    && w.overtaken <= w'.overtaken
    && (forall o :: o in w.ops ==> o in w'.ops && OpProgress(w, w.ops[o], w'.ops[o]))
    && (forall o :: o in w'.ops && o !in w.ops ==> w'.ops[o].phase == Running)
  }

  /** Another operation's entry stays good while no slot is added, */
  lemma OtherStaysGood(w: World, w': World, o: Op)
    requires GoodOp(w, o) && w.generation <= w'.generation && w.epoch <= w'.epoch
    requires w.overtaken <= w'.overtaken && w'.slots == w.slots
    ensures GoodOp(w', o)
  {
  }

  /** and when one is added that it has not passed by. */
  lemma OtherStaysGoodWithSlot(w: World, w': World, o: Op, slot: Name)
    requires GoodOp(w, o) && w.generation == w'.generation && w.epoch == w'.epoch
    requires w.overtaken <= w'.overtaken && w'.slots == w.slots + {slot}
    requires forall i :: PassedBy(o, i, slot) ==> i in w'.overtaken
    ensures GoodOp(w', o)
  {
  }

  lemma HookedIsGood(w: World, op: nat, i: Inode)
    requires GoodWorld(w) && CanMove(w, Hook(op, i))
    ensures GoodOp(Moved(w, Hook(op, i)), Moved(w, Hook(op, i)).ops[op])
  {
    assert GoodOp(w, w.ops[op]);
  }

  lemma RenamingIsGood(w: World, m: Move)
    requires GoodWorld(w) && CanMove(w, m) && (m.Hold? || m.Swap? || m.Release?)
    ensures GoodOp(Moved(w, m), Moved(w, m).ops[m.op])
  {
    assert GoodOp(w, w.ops[m.op]);
  }

  lemma AdvancingIsGood(w: World, m: Move)
    requires GoodWorld(w) && CanMove(w, m) && (m.Fail? || m.Bump? || m.Return?)
    ensures GoodOp(Moved(w, m), Moved(w, m).ops[m.op])
  {
    assert GoodOp(w, w.ops[m.op]);
  }

  lemma MovedOpIsGood(w: World, m: Move)
    requires GoodWorld(w) && CanMove(w, m) && !m.Invalidate?
    ensures m.op in Moved(w, m).ops && GoodOp(Moved(w, m), Moved(w, m).ops[m.op])
  {
    match m
    case Hook(op, i) => HookedIsGood(w, op, i);
    case Hold(_, _) => RenamingIsGood(w, m);
    case Swap(_) => RenamingIsGood(w, m);
    case Release(_, _) => RenamingIsGood(w, m);
    case Fail(_) => AdvancingIsGood(w, m);
    case Bump(_) => AdvancingIsGood(w, m);
    case Return(_) => AdvancingIsGood(w, m);
    case _ =>
  }

  lemma AddKeepsGoodOps(w: World, op: nat)
    requires GoodWorld(w) && CanMove(w, AddSlot(op))
    ensures GoodOps(Moved(w, AddSlot(op)))
  {
    var w' := Moved(w, AddSlot(op));
    MovedOpIsGood(w, AddSlot(op));
    forall o | o in w'.ops && o != op ensures GoodOp(w', w'.ops[o]) {
      forall i | PassedBy(w.ops[o], i, w.ops[op].slot) ensures i in w'.overtaken {
        assert i in PassedInodes(w.ops, w.ops[op].slot);
      }
      OtherStaysGoodWithSlot(w, w', w.ops[o], w.ops[op].slot);
    }
  }

  lemma MoveKeepsGoodOps(w: World, m: Move)
    requires GoodWorld(w) && CanMove(w, m)
    ensures GoodOps(Moved(w, m))
  {
    if m.AddSlot? {
      AddKeepsGoodOps(w, m.op);
    } else {
      var w' := Moved(w, m);
      if !m.Invalidate? { MovedOpIsGood(w, m); }
      forall o | o in w'.ops && (m.Invalidate? || o != m.op) ensures GoodOp(w', w'.ops[o]) {
        OtherStaysGood(w, w', w.ops[o]);
      }
    }
  }

  lemma OddStays(w: World, w': World)
    requires OddWhileEnrolling(w) && w'.epoch == w.epoch
    requires forall o :: o in w'.ops && Enrols(w'.ops[o]) ==> o in w.ops && Enrols(w.ops[o])
    ensures OddWhileEnrolling(w')
  {
  }

  lemma EnrolKeepsOdd(w: World, m: Move)
    requires GoodWorld(w) && CanMove(w, m) && (m.BeginEnrol? || (m.Bump? && w.ops[m.op].Enrolment?))
    ensures OddWhileEnrolling(Moved(w, m))
  {
    assert forall o :: o in Moved(w, m).ops && o != m.op ==> o in w.ops && Moved(w, m).ops[o] == w.ops[o];
  }

  lemma MoveKeepsOdd(w: World, m: Move)
    requires GoodWorld(w) && CanMove(w, m)
    ensures OddWhileEnrolling(Moved(w, m))
  {
    if m.BeginEnrol? || (m.Bump? && w.ops[m.op].Enrolment?) {
      EnrolKeepsOdd(w, m);
    } else {
      OddStays(w, Moved(w, m));
    }
  }

  lemma MoveKeepsGood(w: World, m: Move)
    requires GoodWorld(w) && CanMove(w, m)
    ensures GoodWorld(Moved(w, m))
  {
    MoveKeepsGoodOps(w, m);
    MoveKeepsOdd(w, m);
  }

  lemma RenamingProgresses(w: World, m: Move)
    requires GoodWorld(w) && CanMove(w, m) && (m.Hook? || m.Hold? || m.Swap? || m.Release?)
    ensures OpProgress(w, w.ops[m.op], Moved(w, m).ops[m.op])
  {
    assert GoodOp(w, w.ops[m.op]);
  }

  lemma AdvancingProgresses(w: World, m: Move)
    requires GoodWorld(w) && CanMove(w, m) && (m.Fail? || m.Bump? || m.Return? || m.AddSlot?)
    ensures OpProgress(w, w.ops[m.op], Moved(w, m).ops[m.op])
  {
  }

  lemma MovedOpProgresses(w: World, m: Move)
    requires GoodWorld(w) && CanMove(w, m) && !m.Invalidate? && m.op in w.ops
    ensures OpProgress(w, w.ops[m.op], Moved(w, m).ops[m.op])
  {
    if m.Hook? || m.Hold? || m.Swap? || m.Release? {
      RenamingProgresses(w, m);
    } else {
      AdvancingProgresses(w, m);
    }
  }

  lemma MoveProgresses(w: World, m: Move)
    requires GoodWorld(w) && CanMove(w, m)
    ensures Progress(w, Moved(w, m))
  {
    var w' := Moved(w, m);
    if !m.Invalidate? && m.op in w.ops { MovedOpProgresses(w, m); }
    forall o | o in w.ops ensures o in w'.ops && OpProgress(w, w.ops[o], w'.ops[o]) {
      assert m.Invalidate? || o != m.op ==> w'.ops[o] == w.ops[o];
    }
  }

  /** The tracked operations with their effect in place that can have moved the inode into a slot. */
  function EnteringOps(ops: map<nat, Op>, i: Inode): set<nat> {
    set o | o in ops && Tracked(ops[o]) && Affects(ops[o], i) && ops[o].phase != Running
  }

  /** An inode that no enrolment has overtaken enters a slot only by the completion of a tracked operation on it. */
  lemma EntersByTracked(w: World, m: Move, i: Inode) returns (op: nat)
    requires GoodWorld(w) && CanMove(w, m) && i !in Moved(w, m).overtaken
    requires InSlot(Moved(w, m), i) && !(InSlot(w, i) && Moved(w, m).names[i] == w.names[i])
    ensures op in w.ops && w.ops[op].phase == Running && op in EnteringOps(Moved(w, m).ops, i)
  {
    assert m.Swap? || m.AddSlot?;
    op := m.op;
    if m.Swap? { assert GoodOp(w, w.ops[op]); }
  }

  // --- Lookups ---

  /** A lookup takes its next access. `either` picks what the compiler may choose: which counter is read first, and
      whether the stability test reads the epoch again. */
  datatype Step =
    | Operation(move: Move)
    | Evict(inode: Inode)
    | Begin(t: nat, inode: Inode)
    | Look(t: nat, either: bool)
    | Leave(t: nat)

  predicate Init(s: State) {
    s.world.ops == map[] && s.world.epoch % 2 == 0 && s.world.overtaken == {} && s.cache == map[] && s.lookups == map[]
  }

  predicate Finished(pc: PC) { pc.Answer? || pc.CacheHit? }

  predicate CanLook(s: State, t: nat) {
    t in s.lookups && s.lookups[t].inode in s.world.names && !Finished(s.lookups[t].pc)
  }

  predicate Enabled(s: State, step: Step) {
    match step
    case Operation(m) => CanMove(s.world, m)
    case Evict(_) => true
    case Begin(t, i) => t !in s.lookups && i in s.world.names
    case Look(t, _) => CanLook(s, t)
    case Leave(t) => t in s.lookups && Finished(s.lookups[t].pc)
  }

  predicate Holding(w: World, op: nat, i: Inode) { op in w.ops && w.ops[op].Rename? && i in w.ops[op].holding }

  predicate IsHeld(w: World, i: Inode) { exists o :: o in w.ops && Holding(w, o, i) }

  ghost function Holder(w: World, i: Inode): (o: Option<nat>)
    ensures o.Some? ==> Holding(w, o.value, i)
    ensures o.None? ==> !IsHeld(w, i)
  {
    if IsHeld(w, i) then var o :| o in w.ops && Holding(w, o, i); Some(o) else None
  }

  ghost function NewLookup(w: World, i: Inode): Lookup {
    Lookup(i, BumpedOps(w.ops), AddingOps(w.ops), w.epoch, w.generation, Unsettled(w.ops, i), InSlot(w, i),
           Holder(w, i), false, Begun)
  }

  function NextPC(w: World, cache: map<Inode, Basis>, x: Lookup, either: bool): PC
    requires x.inode in w.names
  {
    match x.pc
    case Begun => if x.inode in w.labelled then Answer(true) else PastLabel
    case PastLabel => if IsHeld(w, x.inode) then Answer(true) else PastHeld
    case PastHeld => if either then HasEpoch(w.epoch) else HasGeneration(w.generation)
    case HasEpoch(e) => HasStamp(e, w.generation)
    case HasGeneration(g) => HasStamp(w.epoch, g)
    case HasStamp(e, g) => Checked(e, g, if either then w.epoch % 2 == 0 else e % 2 == 0)
    case Checked(e, g, stable) =>
      if stable && x.inode in cache && cache[x.inode].epoch + cache[x.inode].generation == e + g
      then CacheHit(cache[x.inode]) else Missed(e, g, stable)
    case Missed(e, g, stable) => Computing(stable, Basis(e, g, CompleteOps(w.ops), w.names[x.inode]))
    case Computing(stable, b) => if b.name in w.slots then Answer(true) else NoRole(stable, b)
    case NoRole(_, _) => Answer(false)
    case _ => x.pc
  }

  function Advance(w: World, cache: map<Inode, Basis>, x: Lookup, either: bool): Lookup
    requires x.inode in w.names
  {
    x.(pc := NextPC(w, cache, x, either),
       late := if x.pc.PastLabel? && x.holder.Some? then !Holding(w, x.holder.value, x.inode) else x.late)
  }

  /** A lookup's step: finding a slot commits the role, and a stable "no role" is stored. */
  function Perform(s: State, t: nat, either: bool): State
    requires CanLook(s, t)
  {
    var x := s.lookups[t];
    State(if x.pc.Computing? && x.pc.basis.name in s.world.slots
          then s.world.(labelled := s.world.labelled + {x.inode}) else s.world,
          if x.pc.NoRole? && x.pc.stable then s.cache[x.inode := x.pc.basis] else s.cache,
          s.lookups[t := Advance(s.world, s.cache, x, either)])
  }

  ghost function Do(s: State, step: Step): State
    requires Enabled(s, step)
  {
    match step
    case Operation(m) =>
      var w := Moved(s.world, m);
      s.(world := w, lookups := map t | t in s.lookups ::
           s.lookups[t].(always := s.lookups[t].always && InSlot(w, s.lookups[t].inode)))
    case Evict(i) => s.(cache := s.cache - {i})
    case Begin(t, i) => s.(lookups := s.lookups[t := NewLookup(s.world, i)])
    case Look(t, either) => Perform(s, t, either)
    case Leave(t) => s.(lookups := s.lookups - {t})
  }

  // --- The invariant ---

  predicate Due(o: Op, b: Basis) {
    Tracked(o) && HasBumped(o) && (if o.Rename? then o.bump <= b.generation else o.bump <= b.epoch)
  }

  /** `final` answers have looked the name up and found no slot. */
  predicate GoodBasis(w: World, i: Inode, b: Basis, final: bool) {
    && b.epoch <= w.epoch && b.generation <= w.generation && b.seen <= CompleteOps(w.ops)
    && (forall o :: o in w.ops && Due(w.ops[o], b) ==> o in b.seen)
    && (i !in w.overtaken && InSlot(w, i) && (final || w.names[i] != b.name) ==> !(EnteringOps(w.ops, i) <= b.seen))
  }

  /** What was found stable was read before an enrolment in progress began. */
  predicate Early(w: World, epoch: nat) { epoch <= w.epoch && (w.epoch % 2 == 1 ==> epoch < w.epoch) }

  predicate Related(w: World, x: Lookup, i: Inode, b: Basis, final: bool) {
    && (x.began <= b.seen || (b.epoch <= x.epochThen && b.generation <= x.generationThen))
    && (x.adding <= b.seen || (b.epoch < x.epochThen && b.generation <= x.generationThen))
    && (i !in w.overtaken && x.inode == i && x.began <= b.seen && x.adding <= b.seen && !x.overlapped && x.always ==>
          !final && b.name in w.slots)
  }

  /** What a lookup recorded when it began still makes sense. */
  predicate GoodRecord(w: World, x: Lookup) {
    && x.inode in w.names
    && x.began <= BumpedOps(w.ops) && x.adding <= CompleteOps(w.ops)
    && x.epochThen <= w.epoch && x.generationThen <= w.generation
    && (forall o :: o in x.began && o in w.ops ==>
          if w.ops[o].Rename? then w.ops[o].bump <= x.generationThen else w.ops[o].bump <= x.epochThen)
    && (x.always ==> InSlot(w, x.inode))
  }

  predicate GoodStamp(w: World, x: Lookup, e: nat, g: nat) {
    x.epochThen <= e <= w.epoch && x.generationThen <= g <= w.generation
  }

  predicate GoodPC(w: World, x: Lookup) {
    match x.pc
    case HasEpoch(e) => x.epochThen <= e <= w.epoch
    case HasGeneration(g) => x.generationThen <= g <= w.generation
    case HasStamp(e, g) => GoodStamp(w, x, e, g)
    case Checked(e, g, stable) => GoodStamp(w, x, e, g) && (stable ==> Early(w, e))
    case Missed(e, g, stable) => GoodStamp(w, x, e, g) && (stable ==> Early(w, e))
    case Computing(stable, b) =>
      GoodBasis(w, x.inode, b, false) && (stable ==> Early(w, b.epoch)) && (x.always ==> b.name in w.slots)
    case NoRole(stable, b) => GoodBasis(w, x.inode, b, true) && (stable ==> Early(w, b.epoch)) && !x.always
    case Answer(role) => !role ==> !x.always
    case CacheHit(b) =>
      x.began <= b.seen && x.adding <= b.seen && GoodBasis(w, x.inode, b, true) && Related(w, x, x.inode, b, true)
    case _ => true
  }

  /** The rename that held the inode's role when the lookup began still does, or is past its end. */
  predicate GoodHolder(w: World, x: Lookup) {
    x.holder.Some? ==>
      && x.holder.value in w.ops && w.ops[x.holder.value].Rename?
      && (Holding(w, x.holder.value, x.inode) || w.ops[x.holder.value].phase != Running)
      && (x.late ==> !Holding(w, x.holder.value, x.inode))
      && (!x.pc.Begun? && !x.pc.PastLabel? && x.pc != Answer(true) ==> x.late)
  }

  predicate GoodLookup(w: World, x: Lookup) { GoodRecord(w, x) && GoodPC(w, x) && GoodHolder(w, x) }

  ghost predicate AllRelated(s: State, i: Inode, b: Basis, final: bool) {
    forall t :: t in s.lookups ==> Related(s.world, s.lookups[t], i, b, final)
  }

  /** A computation that will be stored, or its answer. */
  predicate Storing(pc: PC) { (pc.Computing? || pc.NoRole?) && pc.stable }

  ghost predicate Inv(s: State) {
    && GoodWorld(s.world)
    && (forall t :: t in s.lookups ==> GoodLookup(s.world, s.lookups[t]))
    && (forall t :: t in s.lookups && Storing(s.lookups[t].pc) ==>
          AllRelated(s, s.lookups[t].inode, s.lookups[t].pc.basis, s.lookups[t].pc.NoRole?))
    && (forall i :: i in s.cache ==> GoodEntry(s, i))
  }

  ghost predicate GoodEntry(s: State, i: Inode)
    requires i in s.cache
  {
    GoodBasis(s.world, i, s.cache[i], true) && Early(s.world, s.cache[i].epoch) && AllRelated(s, i, s.cache[i], true)
  }

  lemma MoveKeepsOutside(w: World, m: Move, i: Inode, b: Basis, final: bool)
    requires GoodWorld(w) && CanMove(w, m) && GoodBasis(w, i, b, final)
    requires i !in Moved(w, m).overtaken && InSlot(Moved(w, m), i) && (final || Moved(w, m).names[i] != b.name)
    ensures !(EnteringOps(Moved(w, m).ops, i) <= b.seen)
  {
    var w' := Moved(w, m);
    MoveProgresses(w, m);
    if InSlot(w, i) && w'.names[i] == w.names[i] {
      var o :| o in EnteringOps(w.ops, i) && o !in b.seen;
      assert OpProgress(w, w.ops[o], w'.ops[o]);
      assert o in EnteringOps(w'.ops, i);
    } else {
      var o := EntersByTracked(w, m, i);
      assert o !in b.seen;
    }
  }

  /** An operation that counts as seen stays seen, and no other falls due under the counters read. */
  lemma ProgressKeepsSeen(w: World, w': World, b: Basis)
    requires Progress(w, w') && b.epoch <= w.epoch && b.generation <= w.generation && b.seen <= CompleteOps(w.ops)
    requires forall o :: o in w.ops && Due(w.ops[o], b) ==> o in b.seen
    ensures b.seen <= CompleteOps(w'.ops) && forall o :: o in w'.ops && Due(w'.ops[o], b) ==> o in b.seen
  {
    forall o | o in w'.ops && Due(w'.ops[o], b) ensures o in b.seen {
      if o in w.ops { assert OpProgress(w, w.ops[o], w'.ops[o]); }
    }
  }

  lemma MoveKeepsBasis(w: World, m: Move, i: Inode, b: Basis, final: bool)
    requires GoodWorld(w) && CanMove(w, m) && GoodBasis(w, i, b, final)
    ensures GoodBasis(Moved(w, m), i, b, final)
  {
    var w' := Moved(w, m);
    MoveProgresses(w, m);
    ProgressKeepsSeen(w, w', b);
    if i !in w'.overtaken && InSlot(w', i) && (final || w'.names[i] != b.name) { MoveKeepsOutside(w, m, i, b, final); }
  }

  lemma MoveKeepsRecord(w: World, m: Move, x: Lookup)
    requires GoodWorld(w) && CanMove(w, m) && GoodRecord(w, x)
    ensures GoodRecord(Moved(w, m), x.(always := x.always && InSlot(Moved(w, m), x.inode)))
  {
    MoveProgresses(w, m);
  }

  lemma MoveKeepsEarly(w: World, m: Move, epoch: nat)
    requires CanMove(w, m) && Early(w, epoch)
    ensures Early(Moved(w, m), epoch)
  {
  }

  lemma MoveKeepsPC(w: World, m: Move, x: Lookup)
    requires GoodWorld(w) && CanMove(w, m) && GoodPC(w, x)
    ensures GoodPC(Moved(w, m), x.(always := x.always && InSlot(Moved(w, m), x.inode)))
  {
    MoveProgresses(w, m);
    match x.pc
    case Checked(e, _, stable) => if stable { MoveKeepsEarly(w, m, e); }
    case Missed(e, _, stable) => if stable { MoveKeepsEarly(w, m, e); }
    case Computing(stable, b) =>
      MoveKeepsBasis(w, m, x.inode, b, false);
      if stable { MoveKeepsEarly(w, m, b.epoch); }
    case NoRole(stable, b) =>
      MoveKeepsBasis(w, m, x.inode, b, true);
      if stable { MoveKeepsEarly(w, m, b.epoch); }
    case CacheHit(b) => MoveKeepsBasis(w, m, x.inode, b, true);
    case _ =>
  }

  /** A hold begins only while its rename runs and ends only after that. */
  predicate HoldProgress(o: Op, o': Op, i: Inode) {
    && o.Rename? && o'.Rename? && (o.phase != Running ==> o'.phase != Running)
    && (i in o'.holding && i !in o.holding ==> o.phase == Running)
    && (i in o.holding && i !in o'.holding ==> o'.phase != Running)
  }

  lemma HoldsProgress(w: World, m: Move, h: nat, i: Inode)
    requires CanMove(w, m) && h in w.ops && w.ops[h].Rename?
    ensures h in Moved(w, m).ops && HoldProgress(w.ops[h], Moved(w, m).ops[h], i)
  {
  }

  /** A hold that ended does not return. */
  lemma HolderStays(w: World, w': World, x: Lookup, always: bool)
    requires GoodHolder(w, x)
    requires x.holder.Some? ==>
               x.holder.value in w'.ops && HoldProgress(w.ops[x.holder.value], w'.ops[x.holder.value], x.inode)
    ensures GoodHolder(w', x.(always := always))
  {
  }

  lemma MoveKeepsHolder(w: World, m: Move, x: Lookup)
    requires CanMove(w, m) && GoodHolder(w, x)
    ensures GoodHolder(Moved(w, m), x.(always := x.always && InSlot(Moved(w, m), x.inode)))
  {
    if x.holder.Some? { HoldsProgress(w, m, x.holder.value, x.inode); }
    HolderStays(w, Moved(w, m), x, x.always && InSlot(Moved(w, m), x.inode));
  }

  lemma MoveKeepsLookup(w: World, m: Move, x: Lookup)
    requires GoodWorld(w) && CanMove(w, m) && GoodLookup(w, x)
    ensures GoodLookup(Moved(w, m), x.(always := x.always && InSlot(Moved(w, m), x.inode)))
  {
    MoveKeepsRecord(w, m, x);
    MoveKeepsPC(w, m, x);
    MoveKeepsHolder(w, m, x);
  }

  lemma MoveKeepsRelated(s: State, m: Move, i: Inode, b: Basis, final: bool)
    requires Inv(s) && CanMove(s.world, m) && AllRelated(s, i, b, final)
    ensures AllRelated(Do(s, Operation(m)), i, b, final)
  {
    MoveProgresses(s.world, m);
    forall t | t in s.lookups
      ensures Related(Moved(s.world, m), Do(s, Operation(m)).lookups[t], i, b, final)
    {
      assert Related(s.world, s.lookups[t], i, b, final);
    }
  }

  lemma OperationKeepsInv(s: State, m: Move)
    requires Inv(s) && CanMove(s.world, m)
    ensures Inv(Do(s, Operation(m)))
  {
    var s' := Do(s, Operation(m));
    MoveKeepsGood(s.world, m);
    forall t | t in s'.lookups ensures GoodLookup(s'.world, s'.lookups[t]) {
      MoveKeepsLookup(s.world, m, s.lookups[t]);
    }
    forall t | t in s'.lookups && Storing(s'.lookups[t].pc)
      ensures AllRelated(s', s'.lookups[t].inode, s'.lookups[t].pc.basis, s'.lookups[t].pc.NoRole?)
    {
      MoveKeepsRelated(s, m, s.lookups[t].inode, s.lookups[t].pc.basis, s.lookups[t].pc.NoRole?);
    }
    forall i | i in s'.cache ensures GoodEntry(s', i) {
      assert GoodEntry(s, i);
      MoveKeepsBasis(s.world, m, i, s.cache[i], true);
      MoveKeepsEarly(s.world, m, s.cache[i].epoch);
      MoveKeepsRelated(s, m, i, s.cache[i], true);
    }
  }

  lemma HitIsFresh(w: World, x: Lookup, b: Basis)
    requires GoodWorld(w) && GoodLookup(w, x) && x.pc.Checked? && GoodBasis(w, x.inode, b, true)
    requires Related(w, x, x.inode, b, true)
    requires b.epoch + b.generation == x.pc.epoch + x.pc.generation
    ensures x.began <= b.seen && x.adding <= b.seen
  {
    if b.epoch <= x.epochThen && b.generation <= x.generationThen {
      forall o | o in x.began ensures o in b.seen {
        assert Due(w.ops[o], b);
      }
    }
  }

  lemma NewLookupIsGood(w: World, i: Inode)
    requires GoodWorld(w) && i in w.names
    ensures GoodLookup(w, NewLookup(w, i))
  {
    assert forall o :: o in NewLookup(w, i).began ==> GoodOp(w, w.ops[o]);
  }

  lemma NewLookupIsRelated(w: World, i: Inode, j: Inode, b: Basis, final: bool)
    requires GoodWorld(w) && i in w.names && GoodBasis(w, j, b, final) && Early(w, b.epoch)
    ensures Related(w, NewLookup(w, i), j, b, final)
  {
    var x := NewLookup(w, i);
    if x.adding != {} {
      var o :| o in x.adding;
      assert w.epoch % 2 == 1;
    }
    if x.began <= b.seen && x.adding <= b.seen && !x.overlapped {
      forall o | o in EnteringOps(w.ops, i) ensures o in b.seen {
        assert o in x.began || o in x.adding;
      }
    }
  }

  lemma BeginKeepsRelated(s: State, t: nat, i: Inode, j: Inode, b: Basis, final: bool)
    requires Inv(s) && Enabled(s, Begin(t, i)) && GoodBasis(s.world, j, b, final) && Early(s.world, b.epoch)
    requires AllRelated(s, j, b, final)
    ensures AllRelated(Do(s, Begin(t, i)), j, b, final)
  {
    NewLookupIsRelated(s.world, i, j, b, final);
  }

  lemma BeginKeepsInv(s: State, t: nat, i: Inode)
    requires Inv(s) && Enabled(s, Begin(t, i))
    ensures Inv(Do(s, Begin(t, i)))
  {
    var s' := Do(s, Begin(t, i));
    NewLookupIsGood(s.world, i);
    forall u | u in s'.lookups && Storing(s'.lookups[u].pc)
      ensures AllRelated(s', s'.lookups[u].inode, s'.lookups[u].pc.basis, s'.lookups[u].pc.NoRole?)
    {
      assert GoodLookup(s.world, s.lookups[u]);
      BeginKeepsRelated(s, t, i, s.lookups[u].inode, s.lookups[u].pc.basis, s.lookups[u].pc.NoRole?);
    }
    forall j | j in s'.cache ensures GoodEntry(s', j) {
      assert GoodEntry(s, j);
      BeginKeepsRelated(s, t, i, j, s.cache[j], true);
    }
  }

  /** The basis of a computation that just read the name. */
  lemma MissIsGood(w: World, i: Inode, e: nat, g: nat)
    requires GoodWorld(w) && i in w.names && e <= w.epoch && g <= w.generation
    ensures GoodBasis(w, i, Basis(e, g, CompleteOps(w.ops), w.names[i]), false)
  {
  }

  lemma OutsideIsGood(w: World, i: Inode, b: Basis)
    requires GoodBasis(w, i, b, false) && b.name !in w.slots
    ensures GoodBasis(w, i, b, true)
  {
  }

  lemma LookupKeepsPC(w: World, cache: map<Inode, Basis>, x: Lookup, either: bool)
    requires GoodWorld(w) && GoodLookup(w, x) && x.pc.Checked?
    requires x.inode in cache ==>
               GoodBasis(w, x.inode, cache[x.inode], true) && Related(w, x, x.inode, cache[x.inode], true)
    ensures GoodPC(w, x.(pc := NextPC(w, cache, x, either)))
  {
    if NextPC(w, cache, x, either).CacheHit? { HitIsFresh(w, x, cache[x.inode]); }
  }

  lemma MissKeepsPC(w: World, cache: map<Inode, Basis>, x: Lookup, either: bool)
    requires GoodWorld(w) && GoodLookup(w, x) && x.pc.Missed?
    ensures GoodPC(w, x.(pc := NextPC(w, cache, x, either)))
  {
    MissIsGood(w, x.inode, x.pc.epoch, x.pc.generation);
  }

  lemma ComputeKeepsPC(w: World, cache: map<Inode, Basis>, x: Lookup, either: bool)
    requires GoodLookup(w, x) && x.pc.Computing?
    ensures GoodPC(w, x.(pc := NextPC(w, cache, x, either)))
  {
    if x.pc.basis.name !in w.slots { OutsideIsGood(w, x.inode, x.pc.basis); }
  }

  lemma CountersKeepPC(w: World, cache: map<Inode, Basis>, x: Lookup, either: bool)
    requires GoodLookup(w, x) && x.inode in w.names && !x.pc.Checked? && !x.pc.Missed? && !x.pc.Computing?
    requires !Finished(x.pc)
    ensures GoodPC(w, x.(pc := NextPC(w, cache, x, either)))
  {
  }

  lemma AdvanceKeepsPC(w: World, cache: map<Inode, Basis>, x: Lookup, either: bool)
    requires GoodWorld(w) && GoodLookup(w, x) && !Finished(x.pc)
    requires x.inode in cache ==>
               GoodBasis(w, x.inode, cache[x.inode], true) && Related(w, x, x.inode, cache[x.inode], true)
    ensures GoodPC(w, x.(pc := NextPC(w, cache, x, either)))
  {
    if x.pc.Checked? {
      LookupKeepsPC(w, cache, x, either);
    } else if x.pc.Missed? {
      MissKeepsPC(w, cache, x, either);
    } else if x.pc.Computing? {
      ComputeKeepsPC(w, cache, x, either);
    } else {
      CountersKeepPC(w, cache, x, either);
    }
  }

  lemma AdvanceIsGood(s: State, t: nat, either: bool)
    requires Inv(s) && CanLook(s, t)
    ensures GoodLookup(s.world, Advance(s.world, s.cache, s.lookups[t], either))
  {
    var x := s.lookups[t];
    assert GoodLookup(s.world, x);
    if x.inode in s.cache { assert GoodEntry(s, x.inode); }
    AdvanceKeepsPC(s.world, s.cache, x, either);
    LateIsIgnored(s.world, x.(pc := NextPC(s.world, s.cache, x, either)),
      Advance(s.world, s.cache, x, either).late);
  }

  lemma LateIsIgnored(w: World, x: Lookup, late: bool)
    requires GoodPC(w, x)
    ensures GoodPC(w, x.(late := late))
  {
  }

  lemma NewBasisIsRelated(s: State, t: nat, either: bool)
    requires Inv(s) && CanLook(s, t)
    ensures var y := Advance(s.world, s.cache, s.lookups[t], either);
            Storing(y.pc) ==> AllRelated(s, y.inode, y.pc.basis, y.pc.NoRole?)
  {
    var y := Advance(s.world, s.cache, s.lookups[t], either);
    if Storing(y.pc) {
      forall u | u in s.lookups ensures Related(s.world, s.lookups[u], y.inode, y.pc.basis, y.pc.NoRole?) {
        assert GoodLookup(s.world, s.lookups[u]);
      }
    }
  }

  lemma LookKeepsRelated(s: State, t: nat, either: bool, i: Inode, b: Basis, final: bool)
    requires CanLook(s, t) && AllRelated(s, i, b, final)
    ensures AllRelated(Perform(s, t, either), i, b, final)
  {
    var s' := Perform(s, t, either);
    forall u | u in s'.lookups ensures Related(s'.world, s'.lookups[u], i, b, final) {
      assert Related(s.world, s.lookups[u], i, b, final);
    }
  }

  lemma LabelIsIgnored(w: World, labelled: set<Inode>, x: Lookup)
    requires GoodLookup(w, x)
    ensures GoodLookup(w.(labelled := labelled), x)
  {
  }

  lemma LookKeepsLookups(s: State, t: nat, either: bool)
    requires Inv(s) && CanLook(s, t)
    ensures var s' := Perform(s, t, either); forall u :: u in s'.lookups ==> GoodLookup(s'.world, s'.lookups[u])
  {
    var s' := Perform(s, t, either);
    AdvanceIsGood(s, t, either);
    forall u | u in s'.lookups ensures GoodLookup(s'.world, s'.lookups[u]) {
      assert GoodLookup(s.world, s'.lookups[u]);
      LabelIsIgnored(s.world, s'.world.labelled, s'.lookups[u]);
    }
  }

  lemma LookKeepsEntries(s: State, t: nat, either: bool)
    requires Inv(s) && CanLook(s, t)
    ensures var s' := Perform(s, t, either); forall i :: i in s'.cache ==> GoodEntry(s', i)
  {
    var s' := Perform(s, t, either);
    assert GoodLookup(s.world, s.lookups[t]);
    forall i | i in s'.cache ensures GoodEntry(s', i) {
      if i in s.cache { assert GoodEntry(s, i); }
      LookKeepsRelated(s, t, either, i, s'.cache[i], true);
    }
  }

  lemma LookKeepsInv(s: State, t: nat, either: bool)
    requires Inv(s) && CanLook(s, t)
    ensures Inv(Perform(s, t, either))
  {
    var s' := Perform(s, t, either);
    LookKeepsLookups(s, t, either);
    NewBasisIsRelated(s, t, either);
    forall u | u in s'.lookups && Storing(s'.lookups[u].pc)
      ensures AllRelated(s', s'.lookups[u].inode, s'.lookups[u].pc.basis, s'.lookups[u].pc.NoRole?)
    {
      LookKeepsRelated(s, t, either, s'.lookups[u].inode, s'.lookups[u].pc.basis, s'.lookups[u].pc.NoRole?);
    }
    LookKeepsEntries(s, t, either);
  }

  lemma DoKeepsInv(s: State, step: Step)
    requires Inv(s) && Enabled(s, step)
    ensures Inv(Do(s, step))
  {
    match step
    case Operation(m) => OperationKeepsInv(s, m);
    case Evict(i) =>
    case Leave(t) =>
    case Begin(t, i) => BeginKeepsInv(s, t, i);
    case Look(t, either) => LookKeepsInv(s, t, either);
  }

  ghost predicate Next(s: State, s': State) { exists step :: Enabled(s, step) && s' == Do(s, step) }

  ghost predicate Run(run: seq<State>) {
    run != [] && Init(run[0]) && forall i :: 0 <= i < |run| - 1 ==> Next(run[i], run[i + 1])
  }

  lemma {:induction false} RunKeepsInv(run: seq<State>)
    requires Run(run)
    ensures Inv(run[|run| - 1])
    decreases |run|
  {
    var last := |run| - 1;
    if last > 0 {
      assert Next(run[last - 1], run[last]);
      RunKeepsInv(run[..last]);
      var step :| Enabled(run[last - 1], step) && run[last] == Do(run[last - 1], step);
      DoKeepsInv(run[last - 1], step);
    }
  }

  /** In every run, a cached "no role" was computed after every enrolment, and every rename into a slot, that had
      returned (or just advanced its counter) when the lookup began. If no rename of this very inode was then
      between its completion and its second advance, and no enrolment has overtaken a rename of it, the inode was
      outside every slot at some instant of the lookup. */
  lemma CachedNoRoleIsFresh(run: seq<State>, t: nat)
    requires Run(run) && t in run[|run| - 1].lookups && run[|run| - 1].lookups[t].pc.CacheHit?
    ensures var x := run[|run| - 1].lookups[t];
            && x.began <= x.pc.basis.seen && x.adding <= x.pc.basis.seen
            && (x.inode !in run[|run| - 1].world.overtaken && !x.overlapped ==> !x.always)
  {
    RunKeepsInv(run);
    assert GoodLookup(run[|run| - 1].world, run[|run| - 1].lookups[t]);
  }

  /** In every run, a "no role" that was computed is exact without any condition: the inode was outside every slot at
      some instant of the lookup. */
  lemma ComputedNoRoleIsExact(run: seq<State>, t: nat)
    requires Run(run) && t in run[|run| - 1].lookups && run[|run| - 1].lookups[t].pc == Answer(false)
    ensures !run[|run| - 1].lookups[t].always
  {
    RunKeepsInv(run);
    assert GoodLookup(run[|run| - 1].world, run[|run| - 1].lookups[t]);
  }

  /** In every run, a lookup that began while a rename held its inode's role answers "no role" only once that hold
      has ended, and only if it read the held roles after that. Even then the inode was outside every slot at some
      instant of the lookup, unless the answer is a cached one for an inode that was overtaken, or the rename had
      already completed when the lookup began. */
  lemma HeldInodeHasRole(run: seq<State>, t: nat)
    requires Run(run) && t in run[|run| - 1].lookups && run[|run| - 1].lookups[t].holder.Some?
    requires var pc := run[|run| - 1].lookups[t].pc; pc.CacheHit? || pc == Answer(false)
    ensures var w, x := run[|run| - 1].world, run[|run| - 1].lookups[t];
            && !Holding(w, x.holder.value, x.inode) && x.late
            && (x.always ==> x.pc.CacheHit? && (x.inode in w.overtaken || x.overlapped))
  {
    RunKeepsInv(run);
    assert GoodLookup(run[|run| - 1].world, run[|run| - 1].lookups[t]);
  }

  // --- Both conditions are needed ---

  ghost predicate Reachable(s: State) { exists run :: Run(run) && run[|run| - 1] == s }

  lemma Reach(s: State, step: Step)
    requires Reachable(s) && Enabled(s, step)
    ensures Reachable(Do(s, step))
  {
    var run :| Run(run) && run[|run| - 1] == s;
    var longer := run + [Do(s, step)];
    forall i | 0 <= i < |longer| - 1 ensures Next(longer[i], longer[i + 1]) {
      if i == |run| - 1 { assert Enabled(s, step); } else { assert Next(run[i], run[i + 1]); }
    }
    assert Run(longer);
  }

  function With(s: State, t: nat, pc: PC): State
    requires t in s.lookups
  {
    s.(lookups := s.lookups[t := s.lookups[t].(pc := pc)])
  }

  lemma ReachPC(s: State, t: nat, from: PC, pc: PC)
    requires t in s.lookups && s.lookups[t].inode in s.world.names && Reachable(With(s, t, from))
    requires !Finished(from) && !from.NoRole? && !from.PastLabel? && !pc.Answer?
    requires NextPC(s.world, s.cache, s.lookups[t].(pc := from), true) == pc
    ensures Reachable(With(s, t, pc))
  {
    Reach(With(s, t, from), Look(t, true));
    assert Perform(With(s, t, from), t, true) == With(s, t, pc);
  }

  /** A lookup past the held roles reads both counters and finds the configuration stable. */
  lemma ReachChecked(s: State, t: nat)
    requires t in s.lookups && s.lookups[t].inode in s.world.names && Reachable(With(s, t, PastHeld))
    requires s.world.epoch % 2 == 0
    ensures Reachable(With(s, t, Checked(s.world.epoch, s.world.generation, true)))
  {
    var e, g := s.world.epoch, s.world.generation;
    ReachPC(s, t, PastHeld, HasEpoch(e));
    ReachPC(s, t, HasEpoch(e), HasStamp(e, g));
    ReachPC(s, t, HasStamp(e, g), Checked(e, g, true));
  }

  /** From there, with nothing cached and the name outside every slot, it caches "no role" and leaves. */
  lemma ReachCached(s: State, t: nat)
    requires t in s.lookups && s.lookups[t].inode in s.world.names
    requires Reachable(With(s, t, Checked(s.world.epoch, s.world.generation, true)))
    requires s.world.names[s.lookups[t].inode] !in s.world.slots && s.lookups[t].inode !in s.cache
    ensures var i := s.lookups[t].inode;
            var b := Basis(s.world.epoch, s.world.generation, CompleteOps(s.world.ops), s.world.names[i]);
            Reachable(State(s.world, s.cache[i := b], s.lookups - {t}))
  {
    var i, e, g := s.lookups[t].inode, s.world.epoch, s.world.generation;
    var b := Basis(e, g, CompleteOps(s.world.ops), s.world.names[i]);
    ReachPC(s, t, Checked(e, g, true), Missed(e, g, true));
    ReachPC(s, t, Missed(e, g, true), Computing(true, b));
    ReachPC(s, t, Computing(true, b), NoRole(true, b));
    ReachStored(s, t, b);
  }

  lemma ReachStored(s: State, t: nat, b: Basis)
    requires t in s.lookups && s.lookups[t].inode in s.world.names && Reachable(With(s, t, NoRole(true, b)))
    ensures Reachable(State(s.world, s.cache[s.lookups[t].inode := b], s.lookups - {t}))
  {
    var stored := With(s.(cache := s.cache[s.lookups[t].inode := b]), t, Answer(false));
    Reach(With(s, t, NoRole(true, b)), Look(t, true));
    assert Perform(With(s, t, NoRole(true, b)), t, true) == stored;
    Reach(stored, Leave(t));
    assert Do(stored, Leave(t)) == State(s.world, s.cache[s.lookups[t].inode := b], s.lookups - {t});
  }

  lemma ReachBegun(s: State, t: nat, i: Inode)
    requires Reachable(s) && t !in s.lookups && i in s.world.names && i !in s.world.labelled
    ensures Reachable(s.(lookups := s.lookups[t := NewLookup(s.world, i).(pc := PastLabel)]))
  {
    Reach(s, Begin(t, i));
    var s1 := Do(s, Begin(t, i));
    assert With(s1, t, Begun) == s1;
    ReachPC(s1, t, Begun, PastLabel);
    assert With(s1, t, PastLabel) == s.(lookups := s.lookups[t := NewLookup(s.world, i).(pc := PastLabel)]);
  }

  lemma ReachPastHeld(s: State, t: nat)
    requires Reachable(s) && t in s.lookups && s.lookups[t].inode in s.world.names && s.lookups[t].pc.PastLabel?
    requires !IsHeld(s.world, s.lookups[t].inode)
    ensures var x := s.lookups[t];
            Reachable(s.(lookups := s.lookups[t := x.(pc := PastHeld, late := x.holder.Some? || x.late)]))
  {
    Reach(s, Look(t, true));
    assert Perform(s, t, true) ==
      s.(lookups := s.lookups[t := s.lookups[t].(pc := PastHeld,
                                                 late := s.lookups[t].holder.Some? || s.lookups[t].late)]);
  }

  /** An operation's step changes only the world for lookups that have seen their inode outside a slot. */
  lemma ReachWorld(s: State, m: Move)
    requires Reachable(s) && CanMove(s.world, m) && forall t :: t in s.lookups ==> !s.lookups[t].always
    ensures Reachable(s.(world := Moved(s.world, m)))
  {
    Reach(s, Operation(m));
    assert Do(s, Operation(m)) == s.(world := Moved(s.world, m));
  }
}
