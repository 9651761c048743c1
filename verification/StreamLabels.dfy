/** The resolver guard's stream labels: a lock-free cache of "this stream is safe" decisions.

    Operations that can make an endpoint protected (a bind, a rename, an owner change, an enrolment)
    advance one of two counters after their effect is visible. A stream operation reads both counters
    one after the other, and is allowed from a cached word only if the word's stamp equals their sum.
    Every read, write and effect below is its own step, in any interleaving of any number of threads.

    Assumed: the counter sum stays below 2^63, and the guard is settled only once no call that entered
    before the completion programs attached is still running (what the task drain establishes). */
module StreamLabels {
  import opened Options

  const SETTLED: nat := 0x4000_0000_0000_0000
  const WORDS: nat := 0x1_0000_0000_0000_0000

  /** One end of a stream. */
  datatype End = End(stream: nat, second: bool)

  /** A call is unobserved if it entered before the completion programs attached. */
  datatype Kind = Call(observed: bool) | Enrolment

  /** Only an enrolment is killed: its process dies, which also frees the directory lock. */
  datatype Phase = Running | Complete | Bumped | Returned | Killed

  /** `bump` is the counter value the operation advanced to. */
  datatype Op = Op(kind: Kind, phase: Phase, bump: nat)

  /** What a resolution rests on: the counters it read, the operations complete when it began, the ends it
      has read so far, and whether it still finds them all unprotected. */
  datatype Basis = Basis(topology: nat, config: nat, seen: set<nat>, resolved: set<End>, safe: bool)

  datatype Label = Label(word: nat, basis: Basis)

  datatype PC =
    | Begun
    | HasTopology(topology: nat)
    | HasVersion(topology: nat, config: nat)
    | Missed(topology: nat, config: nat)
    | Resolving(basis: Basis)
    | Resolved(basis: Basis)
    | AllowedCached(topology: nat, config: nat, cached: Label)
    | AllowedFresh(basis: Basis)
    | Gated

  /** Traffic on a stream, a connection being made, or a new pair of unnamed sockets. */
  datatype Mode = Traffic | Connecting | Pairing

  /** A stream operation. `began` are the operations that had returned when it began; `overlapped` says one
      had not; `always` are the ends that have been protected at every instant since. */
  datatype Thread = Thread(end: End, mode: Mode, began: set<nat>, topologyThen: nat, configThen: nat,
                           overlapped: bool, always: set<End>, pc: PC)

  /** The counters, the operations that move them, and the ends they have made protected. */
  datatype World = World(attached: bool, topology: nat, epoch: nat, settled: bool, ops: map<nat, Op>,
                         protected: set<End>)

  datatype State = State(world: World, labels: map<End, Label>, threads: map<nat, Thread>)

  function Stamp(topology: nat, config: nat): nat { (topology + config) * 2 % WORDS }

  function Word(b: Basis): nat {
    Stamp(b.topology, b.config) + if b.safe && b.config % 2 == 0 then 1 else 0
  }

  /** The configuration word: the enrolment epoch (odd during an update) with the settled bit. */
  function Config(w: World): nat { w.epoch + if w.settled then SETTLED else 0 }

  predicate Settled(config: nat) { config >= SETTLED }

  predicate InRange(w: World) { w.epoch < SETTLED && (w.topology + Config(w)) * 2 < WORDS }

  function Peer(e: End): End { e.(second := !e.second) }

  /** The ends a resolution must read: a connecting client resolves the listener only. */
  function Wanted(t: Thread): set<End> { if t.mode.Connecting? then {Peer(t.end)} else {t.end, Peer(t.end)} }

  /** The resolution read this end or the other end of its stream. */
  predicate Concerns(b: Basis, e: End) { e in b.resolved || Peer(e) in b.resolved }

  function CompleteOps(w: World): set<nat> { set o | o in w.ops && w.ops[o].phase != Running }

  function ReturnedOps(w: World): set<nat> { set o | o in w.ops && w.ops[o].phase == Returned }

  // --- Operations ---

  datatype Move =
    | Attach
    | Settle
    | Enter(op: nat)
    | EnrolBegin(op: nat)
    | Effect(op: nat, protected: set<End>)
    | Finish(op: nat)
    | Bump(op: nat)
    | Return(op: nat)
    | Kill(op: nat)

  predicate InPhase(w: World, op: nat, phase: Phase) { op in w.ops && w.ops[op].phase == phase }

  predicate Gone(o: Op) { o.phase == Returned || o.phase == Killed }

  /** Enrolments hold the pin directory's exclusive lock until they return or die. */
  predicate Locked(w: World) { exists o :: o in w.ops && w.ops[o].kind == Enrolment && !Gone(w.ops[o]) }

  predicate CanMove(w: World, m: Move) {
    match m
    case Attach => true
    case Settle =>
      !w.settled && !Locked(w) && w.attached &&
      forall o :: o in w.ops && w.ops[o].kind == Call(false) ==> w.ops[o].phase == Returned
    case Enter(op) => op !in w.ops
    case EnrolBegin(op) => op !in w.ops && !Locked(w) && w.epoch % 2 == 0
    case Effect(op, _) => InPhase(w, op, Running)
    case Finish(op) => InPhase(w, op, Running)
    case Bump(op) => InPhase(w, op, Complete) && w.ops[op].kind != Call(false)
    case Return(op) => InPhase(w, op, Bumped) || (InPhase(w, op, Complete) && w.ops[op].kind == Call(false))
    case Kill(op) => (InPhase(w, op, Running) || InPhase(w, op, Complete)) && w.ops[op].kind == Enrolment
  }

  function Moved(w: World, m: Move): World
    requires CanMove(w, m)
  {
    match m
    case Attach => w.(attached := true)
    case Settle => w.(settled := true)
    case Enter(op) => w.(ops := w.ops[op := Op(Call(w.attached), Running, 0)])
    case EnrolBegin(op) => w.(ops := w.ops[op := Op(Enrolment, Running, 0)], epoch := w.epoch + 1)
    case Effect(op, protected) => w.(protected := protected)
    case Finish(op) => w.(ops := w.ops[op := w.ops[op].(phase := Complete)])
    case Bump(op) =>
      if w.ops[op].kind == Enrolment
      then w.(epoch := w.epoch + 1, ops := w.ops[op := w.ops[op].(phase := Bumped, bump := Config(w) + 1)])
      else w.(topology := w.topology + 1, ops := w.ops[op := w.ops[op].(phase := Bumped, bump := w.topology + 1)])
    case Return(op) => w.(ops := w.ops[op := w.ops[op].(phase := Returned)])
    case Kill(op) => w.(ops := w.ops[op := w.ops[op].(phase := Killed)])
  }

  predicate HasBumped(o: Op) { o.phase == Bumped || o.phase == Returned }

  predicate GoodOp(w: World, o: Op) {
    && (HasBumped(o) && o.kind == Call(true) ==> o.bump <= w.topology)
    && (HasBumped(o) && o.kind == Enrolment ==> o.bump <= Config(w))
    && (o.kind == Call(false) && w.settled ==> o.phase == Returned)
  }

  predicate GoodWorld(w: World) {
    InRange(w) && (w.settled ==> w.attached) && forall o :: o in w.ops ==> GoodOp(w, w.ops[o])
  }

  /** How one operation may have advanced; a new counter value is beyond every value read before. */
  predicate OpProgress(w: World, o: Op, o': Op) {
    && o'.kind == o.kind
    && (o.phase != Running ==> o'.phase != Running)
    && (o.phase == Returned ==> o' == o)
    && (HasBumped(o) ==> HasBumped(o') && o'.bump == o.bump)
    && (!HasBumped(o) && HasBumped(o') && o.kind == Call(true) ==> w.topology < o'.bump)
    && (!HasBumped(o) && HasBumped(o') && o.kind == Enrolment ==> Config(w) < o'.bump)
  }

  predicate Progress(w: World, w': World) {
    && w.topology <= w'.topology && Config(w) <= Config(w')
    && (forall o :: o in w.ops ==> o in w'.ops && OpProgress(w, w.ops[o], w'.ops[o]))
    && (forall o :: o in w'.ops && o !in w.ops ==>
          w'.ops[o].phase == Running && (w.settled ==> w'.ops[o].kind != Call(false)))
    && (w'.protected != w.protected ==> exists o :: o in w.ops && w.ops[o].phase == Running)
  }

  lemma MoveKeepsGood(w: World, m: Move)
    requires GoodWorld(w) && CanMove(w, m) && InRange(Moved(w, m))
    ensures GoodWorld(Moved(w, m))
  {
  }

  lemma MoveProgresses(w: World, m: Move)
    requires GoodWorld(w) && CanMove(w, m) && InRange(Moved(w, m))
    ensures Progress(w, Moved(w, m))
  {
  }

  // --- Stream operations ---

  datatype Step =
    | Operation(move: Move)
    | Begin(t: nat, end: End, mode: Mode)
    | ReadTopology(t: nat)
    | ReadConfig(t: nat)
    | ReadLabel(t: nat)
    | StartResolve(t: nat)
    | PairUp(t: nat)
    | ResolveEnd(t: nat, end: End)
    | EndResolve(t: nat)
    | Store(t: nat, end: End)
    | Conclude(t: nat)

  predicate Init(s: State) {
    s == State(World(false, 0, 0, false, map[], s.world.protected), map[], map[])
  }

  predicate Enabled(s: State, step: Step) {
    match step
    case Operation(m) => CanMove(s.world, m) && InRange(Moved(s.world, m))
    case Begin(t, _, _) => t !in s.threads
    case ReadTopology(t) => t in s.threads && s.threads[t].pc.Begun?
    case ReadConfig(t) => t in s.threads && s.threads[t].pc.HasTopology?
    case ReadLabel(t) => t in s.threads && s.threads[t].pc.HasVersion? && s.threads[t].mode.Traffic?
    case StartResolve(t) =>
      t in s.threads && (s.threads[t].pc.Missed? || (s.threads[t].pc.HasVersion? && s.threads[t].mode.Connecting?))
    case PairUp(t) =>
      t in s.threads && s.threads[t].pc.HasVersion? && s.threads[t].mode.Pairing? &&
        Wanted(s.threads[t]) !! s.world.protected
    case ResolveEnd(t, e) => t in s.threads && s.threads[t].pc.Resolving? && e in Wanted(s.threads[t])
    case EndResolve(t) =>
      t in s.threads && s.threads[t].pc.Resolving? && Wanted(s.threads[t]) <= s.threads[t].pc.basis.resolved
    case Store(t, e) =>
      t in s.threads && s.threads[t].pc.Resolved? && Settled(s.threads[t].pc.basis.config) &&
      (e == s.threads[t].end || (!s.threads[t].mode.Traffic? && e == Peer(s.threads[t].end)))
    case Conclude(t) => t in s.threads && s.threads[t].pc.Resolved?
  }

  /** What a lookup decides: a current word decides by its safe bit, anything else is resolved afresh. */
  function AfterLookup(labels: map<End, Label>, x: Thread): PC
    requires x.pc.HasVersion?
  {
    var stamp := Stamp(x.pc.topology, x.pc.config);
    if x.end !in labels || labels[x.end].word - labels[x.end].word % 2 != stamp
    then Missed(x.pc.topology, x.pc.config)
    else if x.pc.config % 2 == 0 && labels[x.end].word % 2 == 1
    then AllowedCached(x.pc.topology, x.pc.config, labels[x.end])
    else Gated
  }

  function NewThread(w: World, end: End, mode: Mode): Thread {
    Thread(end, mode, ReturnedOps(w), w.topology, Config(w), ReturnedOps(w) != w.ops.Keys, w.protected, Begun)
  }

  /** What a resolved thread stores; a new pair is safe whatever the configuration. */
  function LabelOf(x: Thread): Label
    requires x.pc.Resolved?
  {
    var b := x.pc.basis;
    Label(if x.mode.Pairing? then Stamp(b.topology, b.config) + 1 else Word(b), b)
  }

  /** The next control point of the thread that takes a step. */
  function NextPC(s: State, x: Thread, step: Step): PC {
    match (step, x.pc)
    case (ReadTopology(_), Begun) => HasTopology(s.world.topology)
    case (ReadConfig(_), HasTopology(t)) => HasVersion(t, Config(s.world))
    case (ReadLabel(_), HasVersion(_, _)) => AfterLookup(s.labels, x)
    case (StartResolve(_), HasVersion(t, c)) => Resolving(Basis(t, c, CompleteOps(s.world), {}, true))
    case (StartResolve(_), Missed(t, c)) => Resolving(Basis(t, c, CompleteOps(s.world), {}, true))
    case (PairUp(_), HasVersion(t, c)) => Resolved(Basis(t, c, CompleteOps(s.world), Wanted(x), true))
    case (ResolveEnd(_, e), Resolving(b)) =>
      Resolving(b.(resolved := b.resolved + {e}, safe := b.safe && e !in s.world.protected))
    case (EndResolve(_), Resolving(b)) => Resolved(b)
    case (Conclude(_), Resolved(b)) =>
      if b.safe && (b.config % 2 == 0 || x.mode.Pairing?) then AllowedFresh(b) else Gated
    case _ => x.pc
  }

  function Do(s: State, step: Step): State
    requires Enabled(s, step)
  {
    match step
    case Operation(m) =>
      var w := Moved(s.world, m);
      s.(world := w,
         threads := map t | t in s.threads :: s.threads[t].(always := s.threads[t].always * w.protected))
    case Begin(t, end, mode) => s.(threads := s.threads[t := NewThread(s.world, end, mode)])
    case Store(t, e) => s.(labels := s.labels[e := LabelOf(s.threads[t])])
    case _ => s.(threads := s.threads[step.t := s.threads[step.t].(pc := NextPC(s, s.threads[step.t], step))])
  }

  // --- The invariant ---

  /** The operation belongs to what a resolution with this basis must have seen. */
  predicate Due(o: Op, b: Basis) {
    match o.kind
    case Call(observed) => if observed then HasBumped(o) && o.bump <= b.topology else Settled(b.config)
    case Enrolment => HasBumped(o) && o.bump <= b.config
  }

  predicate GoodBasis(w: World, b: Basis) {
    && b.topology <= w.topology && b.config <= Config(w)
    && b.seen <= CompleteOps(w)
    && (forall o :: o in w.ops && Due(w.ops[o], b) ==> o in b.seen)
    && (b.safe ==> forall e :: e in b.resolved && e in w.protected ==> !(w.ops.Keys <= b.seen))
  }

  /** A resolution either saw all that had returned when `x` began, or read both counters before `x` did. */
  predicate Related(x: Thread, b: Basis) {
    && (x.began <= b.seen || (b.topology <= x.topologyThen && b.config <= x.configThen))
    && (x.began <= b.seen && b.safe && !x.overlapped ==> b.resolved !! x.always)
  }

  predicate GoodBegin(w: World, x: Thread) {
    && x.began <= ReturnedOps(w) && x.topologyThen <= w.topology && x.configThen <= Config(w)
    && (forall o :: o in x.began && o in w.ops ==>
          (w.ops[o].kind == Call(true) ==> w.ops[o].bump <= x.topologyThen) &&
          (w.ops[o].kind == Enrolment ==> w.ops[o].bump <= x.configThen))
  }

  predicate GoodPC(w: World, x: Thread) {
    match x.pc
    case HasTopology(t) => x.topologyThen <= t <= w.topology
    case HasVersion(t, c) => x.topologyThen <= t <= w.topology && x.configThen <= c <= Config(w)
    case Missed(t, c) => x.topologyThen <= t <= w.topology && x.configThen <= c <= Config(w) && x.mode.Traffic?
    case Resolving(_) => !x.mode.Pairing?
    case Resolved(b) => Wanted(x) <= b.resolved && (x.mode.Pairing? ==> b.safe)
    case AllowedCached(_, _, l) => x.began <= l.basis.seen && l.basis.safe && Concerns(l.basis, x.end)
    case _ => true
  }

  function BasisOf(x: Thread): Option<Basis> {
    match x.pc
    case Resolving(b) => Some(b)
    case Resolved(b) => Some(b)
    case AllowedFresh(b) => Some(b)
    case AllowedCached(_, _, l) => Some(l.basis)
    case _ => None
  }

  predicate GoodThread(w: World, x: Thread) {
    GoodBegin(w, x) && GoodPC(w, x) && x.always <= w.protected && (BasisOf(x).Some? ==> GoodBasis(w, BasisOf(x).value))
  }

  predicate GoodLabel(w: World, e: End, l: Label) {
    && GoodBasis(w, l.basis) && Settled(l.basis.config) && Concerns(l.basis, e)
    && l.word - l.word % 2 == Stamp(l.basis.topology, l.basis.config) && (l.word % 2 == 1 ==> l.basis.safe)
  }

  ghost predicate AllRelated(s: State, b: Basis) {
    forall t :: t in s.threads ==> Related(s.threads[t], b)
  }

  ghost predicate Inv(s: State) {
    && GoodWorld(s.world)
    && (forall t :: t in s.threads ==> GoodThread(s.world, s.threads[t]))
    && (forall t :: t in s.threads && BasisOf(s.threads[t]).Some? ==> AllRelated(s, BasisOf(s.threads[t]).value))
    && (forall e :: e in s.labels ==> GoodLabel(s.world, e, s.labels[e]) && AllRelated(s, s.labels[e].basis))
  }

  lemma ProgressKeepsBasis(w: World, w': World, b: Basis)
    requires GoodWorld(w) && GoodWorld(w') && Progress(w, w') && GoodBasis(w, b)
    ensures GoodBasis(w', b)
  {
  }

  lemma ProgressKeepsThread(w: World, w': World, x: Thread)
    requires GoodWorld(w) && GoodWorld(w') && Progress(w, w') && GoodThread(w, x)
    ensures GoodThread(w', x.(always := x.always * w'.protected))
  {
    if BasisOf(x).Some? { ProgressKeepsBasis(w, w', BasisOf(x).value); }
  }

  /** A thread whose record of protected ends shrinks stays related. */
  lemma OperationKeepsRelated(s: State, m: Move, b: Basis)
    requires Enabled(s, Operation(m)) && AllRelated(s, b)
    ensures AllRelated(Do(s, Operation(m)), b)
  {
    forall t | t in s.threads ensures Related(Do(s, Operation(m)).threads[t], b) {
      assert Related(s.threads[t], b);
    }
  }

  lemma OperationKeepsThreads(s: State, m: Move)
    requires Inv(s) && Enabled(s, Operation(m))
    ensures var s' := Do(s, Operation(m)); forall t :: t in s'.threads ==> GoodThread(s'.world, s'.threads[t])
  {
    var s' := Do(s, Operation(m));
    MoveKeepsGood(s.world, m);
    MoveProgresses(s.world, m);
    forall t | t in s'.threads ensures GoodThread(s'.world, s'.threads[t]) {
      ProgressKeepsThread(s.world, s'.world, s.threads[t]);
    }
  }

  lemma OperationKeepsInv(s: State, m: Move)
    requires Inv(s) && Enabled(s, Operation(m))
    ensures Inv(Do(s, Operation(m)))
  {
    var s' := Do(s, Operation(m));
    MoveKeepsGood(s.world, m);
    MoveProgresses(s.world, m);
    OperationKeepsThreads(s, m);
    forall t | t in s'.threads && BasisOf(s'.threads[t]).Some? ensures AllRelated(s', BasisOf(s'.threads[t]).value) {
      OperationKeepsRelated(s, m, BasisOf(s.threads[t]).value);
    }
    forall e | e in s'.labels ensures GoodLabel(s'.world, e, s'.labels[e]) && AllRelated(s', s'.labels[e].basis) {
      ProgressKeepsBasis(s.world, s'.world, s.labels[e].basis);
      OperationKeepsRelated(s, m, s.labels[e].basis);
    }
  }

  /** Equal stamps of counters in range are equal sums, so a word that matches was resolved on all that had
      returned when the operation began. */
  lemma HitIsFresh(w: World, x: Thread, l: Label)
    requires GoodWorld(w) && GoodThread(w, x) && x.pc.HasVersion? && GoodLabel(w, x.end, l) && Related(x, l.basis)
    requires l.word - l.word % 2 == Stamp(x.pc.topology, x.pc.config) && l.word % 2 == 1
    ensures x.began <= l.basis.seen && l.basis.safe
  {
    var b := l.basis;
    assert (b.topology + b.config) * 2 < WORDS && (x.pc.topology + x.pc.config) * 2 < WORDS;
    assert b.topology + b.config == x.pc.topology + x.pc.config;
    if b.topology <= x.topologyThen && b.config <= x.configThen {
      forall o | o in x.began ensures o in b.seen {
        assert Due(w.ops[o], b);
      }
    }
  }

  lemma NewBasisIsGood(w: World, topology: nat, config: nat, resolved: set<End>)
    requires GoodWorld(w) && topology <= w.topology && config <= Config(w)
    requires resolved !! w.protected
    ensures GoodBasis(w, Basis(topology, config, CompleteOps(w), resolved, true))
  {
  }

  lemma BeginKeepsInv(s: State, t: nat, end: End, mode: Mode)
    requires Inv(s) && Enabled(s, Begin(t, end, mode))
    ensures Inv(Do(s, Begin(t, end, mode)))
  {
    var x := NewThread(s.world, end, mode);
    assert forall o :: o in x.began ==> GoodOp(s.world, s.world.ops[o]);
    forall b | GoodBasis(s.world, b) ensures Related(x, b) {}
  }

  predicate ThreadStep(s: State, step: Step, t: nat) {
    t in s.threads && Enabled(s, step) && !step.Operation? && !step.Begin? && !step.Store? && step.t == t
  }

  function Stepped(s: State, step: Step, t: nat): Thread
    requires t in s.threads
  {
    s.threads[t].(pc := NextPC(s, s.threads[t], step))
  }

  lemma ReadIsGood(s: State, t: nat, step: Step)
    requires Inv(s) && ThreadStep(s, step, t) && (step.ReadTopology? || step.ReadConfig? || step.ReadLabel?)
    ensures GoodThread(s.world, Stepped(s, step, t))
  {
    var x := s.threads[t];
    assert GoodThread(s.world, x);
    if step.ReadLabel? && AfterLookup(s.labels, x).AllowedCached? { HitIsFresh(s.world, x, s.labels[x.end]); }
  }

  lemma StartIsGood(s: State, t: nat, step: Step)
    requires Inv(s) && ThreadStep(s, step, t) && (step.StartResolve? || step.PairUp?)
    ensures GoodThread(s.world, Stepped(s, step, t))
  {
    var x := s.threads[t];
    assert GoodThread(s.world, x);
    NewBasisIsGood(s.world, x.pc.topology, x.pc.config, if step.PairUp? then Wanted(x) else {});
  }

  lemma ResolutionIsGood(s: State, t: nat, step: Step)
    requires Inv(s) && ThreadStep(s, step, t) && (step.ResolveEnd? || step.EndResolve? || step.Conclude?)
    ensures GoodThread(s.world, Stepped(s, step, t))
  {
    assert GoodThread(s.world, s.threads[t]);
  }

  /** The thread that takes a step keeps its own invariant. */
  lemma NextPCIsGood(s: State, t: nat, step: Step)
    requires Inv(s) && ThreadStep(s, step, t)
    ensures GoodThread(s.world, Stepped(s, step, t))
  {
    if step.ReadTopology? || step.ReadConfig? || step.ReadLabel? {
      ReadIsGood(s, t, step);
    } else if step.StartResolve? || step.PairUp? {
      StartIsGood(s, t, step);
    } else {
      ResolutionIsGood(s, t, step);
    }
  }

  lemma NextBasisIsRelated(s: State, t: nat, step: Step)
    requires Inv(s) && ThreadStep(s, step, t) && BasisOf(Stepped(s, step, t)).Some?
    ensures AllRelated(s, BasisOf(Stepped(s, step, t)).value)
  {
    var b := BasisOf(Stepped(s, step, t)).value;
    forall u | u in s.threads ensures Related(s.threads[u], b) {
      assert GoodThread(s.world, s.threads[u]);
    }
  }

  lemma ThreadKeepsInv(s: State, step: Step)
    requires Inv(s) && Enabled(s, step) && !step.Operation? && !step.Begin? && !step.Store?
    ensures Inv(Do(s, step))
  {
    var s' := Do(s, step);
    NextPCIsGood(s, step.t, step);
    forall u | u in s'.threads && BasisOf(s'.threads[u]).Some? ensures AllRelated(s', BasisOf(s'.threads[u]).value) {
      if u == step.t { NextBasisIsRelated(s, u, step); }
      assert AllRelated(s, BasisOf(s'.threads[u]).value);
    }
    forall e | e in s'.labels ensures AllRelated(s', s'.labels[e].basis) {
      assert AllRelated(s, s.labels[e].basis);
    }
  }

  lemma StoredIsGood(w: World, x: Thread, e: End)
    requires GoodThread(w, x) && x.pc.Resolved? && Settled(x.pc.basis.config)
    requires e == x.end || (!x.mode.Traffic? && e == Peer(x.end))
    ensures GoodLabel(w, e, LabelOf(x))
  {
    var b := x.pc.basis;
    assert Stamp(b.topology, b.config) % 2 == 0;
    assert Peer(Peer(x.end)) == x.end;
  }

  lemma StoreKeepsInv(s: State, t: nat, e: End)
    requires Inv(s) && Enabled(s, Store(t, e))
    ensures Inv(Do(s, Store(t, e)))
  {
    var s' := Do(s, Store(t, e));
    assert GoodThread(s.world, s.threads[t]);
    StoredIsGood(s.world, s.threads[t], e);
    forall f | f in s'.labels ensures GoodLabel(s'.world, f, s'.labels[f]) && AllRelated(s', s'.labels[f].basis) {
      assert f != e ==> f in s.labels && s'.labels[f] == s.labels[f];
      assert AllRelated(s, s'.labels[f].basis);
    }
    forall u | u in s'.threads && BasisOf(s'.threads[u]).Some? ensures AllRelated(s', BasisOf(s'.threads[u]).value) {
      assert AllRelated(s, BasisOf(s.threads[u]).value);
    }
  }

  lemma DoKeepsInv(s: State, step: Step)
    requires Inv(s) && Enabled(s, step)
    ensures Inv(Do(s, step))
  {
    match step
    case Operation(m) => OperationKeepsInv(s, m);
    case Begin(t, end, mode) => BeginKeepsInv(s, t, end, mode);
    case Store(t, e) => StoreKeepsInv(s, t, e);
    case _ => ThreadKeepsInv(s, step);
  }

  ghost predicate Next(s: State, s': State) { exists step :: Enabled(s, step) && s' == Do(s, step) }

  ghost predicate Run(run: seq<State>) {
    run != [] && Init(run[0]) && forall i :: 0 <= i < |run| - 1 ==> Next(run[i], run[i + 1])
  }

  lemma {:induction false} RunKeepsInv(run: seq<State>)
    requires Run(run)
    ensures Inv(run[|run| - 1])
    decreases |run|
  {
    var last := |run| - 1;
    if last > 0 {
      assert Next(run[last - 1], run[last]);
      RunKeepsInv(run[..last]);
      var step :| Enabled(run[last - 1], step) && run[last] == Do(run[last - 1], step);
      DoKeepsInv(run[last - 1], step);
    }
  }

  /** In every run, a stream operation allowed from a cached word rests on a resolution that began after
      every bind, rename, owner change and enrolment that had returned when the operation began, and that read
      an end of this stream and found it unprotected. Unless one was still in progress then, each end that
      resolution read was unprotected at some instant since. */
  lemma CachedAllowIsFresh(run: seq<State>, t: nat)
    requires Run(run) && t in run[|run| - 1].threads && run[|run| - 1].threads[t].pc.AllowedCached?
    ensures var x := run[|run| - 1].threads[t];
            var b := x.pc.cached.basis;
            && x.began <= b.seen && b.safe && Concerns(b, x.end)
            && (!x.overlapped ==> b.resolved !! x.always)
  {
    RunKeepsInv(run);
    var s := run[|run| - 1];
    assert GoodThread(s.world, s.threads[t]);
    assert Related(s.threads[t], s.threads[t].pc.cached.basis);
  }
}
