/** The whole attribution system: the trace and its barrier, the hint table, and the workers that decide
    routes and deliver answers, in every interleaving.

    Assumed besides the trace's own assumptions: no process identifier is reused between the logging of an event and
    its reading, so that a program in the included set is identified as itself or not at all; and the included set
    does not change. */
module OrderingBarrier {
  import opened Options
  import opened Attribution
  import opened EvidenceLifetimes
  import opened QueryNames
  import TraceBarrier

  /** What the consumer did with a query event. */
  datatype Outcome =
    | Dropped(at: nat)
    | Turned(at: nat)
    | Applied(key: Key, at: nat, generation: nat, evidence: Evidence)

  /** A worker behind the barrier (`vetting` holds the generation of a direct answer it asks about), one
      with a route, and one whose direct answer was delivered. */
  datatype Worker =
    | Waiting(key: Key, vetting: Option<nat>)
    | Routed(key: Key, route: Route, generation: nat)
    | Delivered(key: Key, generation: nat)

  /** `ended` collects the tunnel exchanges that were answered, with the generation each decision used. */
  datatype Sys = Sys(bar: TraceBarrier.Bar, store: Store, outcomes: map<nat, Outcome>,
                     workers: map<nat, Worker>, ended: set<(Key, nat)>)

  datatype Step =
    | Trace(step: TraceBarrier.Step)
    | ReadQuery(evidence: Evidence)
    | Drop
    | ReportLoss
    | Arrive(w: nat, key: Key, checkedAt: nat)
    | DecideRoute(w: nat, checkedAt: nat)
    | GiveUp(w: nat)
    | TunnelAnswered(w: nat)
    | Vet(w: nat)
    | JudgeAnswer(w: nat)
    | DirectEnded(w: nat)

  predicate Init(s: Sys) {
    TraceBarrier.Init(s.bar) && s.store == EMPTY && s.outcomes == map[] && s.workers == map[] && s.ended == {}
  }

  predicate Waits(s: Sys, w: nat) { w in s.workers && s.workers[w].Waiting? }

  predicate Holds(s: Sys, w: nat, route: Route) {
    w in s.workers && s.workers[w].Routed? && s.workers[w].route == route
  }

  predicate AtQuery(b: TraceBarrier.Bar) {
    b.cursor < |b.log| && b.cursor < |b.fates| && b.fates[b.cursor] == TraceBarrier.InFlight && b.log[b.cursor].Query?
  }

  /** The consumer passes a query event on to the table only if it is well formed and its name, as written, is short
      enough; it ignores any other. */
  predicate Legible(what: TraceBarrier.What) { what.Query? && what.whole && |what.question.name| <= MAX_NAME }

  /** The key can be written legibly. */
  predicate Writable(key: Key) { |Spelling(key.name)| <= MAX_NAME }

  /** An event the consumer ignores although other programs may write its name legibly. */
  predicate Overlooked(what: TraceBarrier.What) {
    what.Query? && !Legible(what) && Writable(MakeKey(what.question))
  }

  /** The operation a step performs on the hint table. */
  function OpOf(s: Sys, step: Step): Option<Op> {
    match step
    case ReadQuery(evidence) => if AtQuery(s.bar) then Some(Event(s.bar.log[s.bar.cursor].question, evidence)) else None
    case ReportLoss => Some(Loss)
    case Arrive(_, key, checkedAt) => Some(Choose(key, false, checkedAt))
    case DecideRoute(w, checkedAt) => if Waits(s, w) then Some(Choose(s.workers[w].key, true, checkedAt)) else None
    case TunnelAnswered(w) =>
      if Holds(s, w, ToTunnel) then Some(Answer(s.workers[w].key, Some(s.workers[w].generation))) else None
    case DirectEnded(w) =>
      if w in s.workers && DirectGeneration(s.workers[w]).Some?
      then Some(Answer(s.workers[w].key, DirectGeneration(s.workers[w]))) else None
    case _ => None
  }

  /** An arriving query waits unless tunnel evidence routes it or the table is overloaded. */
  predicate Deferred(s: Sys, key: Key, checkedAt: nat, now: nat, reuse: nat) {
    s.store.overloadedUntil <= checkedAt && Take(s.store, key, false, checkedAt, now, reuse).route == None
  }

  function BarStep(s: Sys, step: Step, now: nat, reuse: nat): TraceBarrier.Step {
    match step
    case Trace(t) => t
    case ReadQuery(_) => TraceBarrier.Read
    case Drop => TraceBarrier.Read
    case ReportLoss => TraceBarrier.Report
    case Arrive(w, key, checkedAt) =>
      if Deferred(s, key, checkedAt, now, reuse) then TraceBarrier.Queue(w) else TraceBarrier.Tick
    case Vet(w) => TraceBarrier.Queue(w)
    case DecideRoute(w, _) => TraceBarrier.Leave(w)
    case GiveUp(w) => TraceBarrier.Leave(w)
    case JudgeAnswer(w) => TraceBarrier.Leave(w)
    case _ => TraceBarrier.Tick
  }

  /** The generation of the direct decision a worker still acts on. */
  function DirectGeneration(w: Worker): Option<nat> {
    match w
    case Waiting(_, vetting) => vetting
    case Routed(_, route, generation) => if route == ToDirect then Some(generation) else None
    case Delivered(_, generation) => Some(generation)
  }

  predicate Enabled(s: Sys, step: Step, now: nat, reuse: nat) {
    TraceBarrier.Enabled(s.bar, BarStep(s, step, now, reuse), now) &&
    match step
    case Trace(t) =>
      !t.Report? && !t.Queue? && !t.Leave? && (t.Read? ==> !AtQuery(s.bar))
    case ReadQuery(evidence) =>
      AtQuery(s.bar) && Legible(s.bar.log[s.bar.cursor]) &&
      (if s.bar.log[s.bar.cursor].chosen then evidence != Unselected else evidence != Selected)
    case Drop => AtQuery(s.bar) && !Legible(s.bar.log[s.bar.cursor])
    case ReportLoss => true
    case Arrive(w, _, checkedAt) => w !in s.workers && s.bar.clock <= checkedAt <= now
    case DecideRoute(w, checkedAt) =>
      Waits(s, w) && s.workers[w].vetting == None && TraceBarrier.Passed(s.bar, w) && s.bar.clock <= checkedAt <= now
    case GiveUp(w) => Waits(s, w)
    case TunnelAnswered(w) => Holds(s, w, ToTunnel)
    case Vet(w) => Holds(s, w, ToDirect)
    case JudgeAnswer(w) => Waits(s, w) && s.workers[w].vetting.Some? && TraceBarrier.Passed(s.bar, w)
    case DirectEnded(w) => w in s.workers && !s.workers[w].Waiting? && DirectGeneration(s.workers[w]).Some?
  }

  function StoreAfter(s: Sys, step: Step, now: nat, reuse: nat): Store {
    match OpOf(s, step) case Some(op) => Apply(s.store, Timed(op, now), reuse) case None => s.store
  }

  /** The route a decision gave a worker, on the generation its entry now has. */
  function Assigned(s: Sys, w: nat, key: Key, route: Route, store: Store): map<nat, Worker> {
    if key in store.hints then s.workers[w := Routed(key, route, store.hints[key].generation)] else s.workers - {w}
  }

  function WorkersAfter(s: Sys, step: Step, now: nat, reuse: nat): map<nat, Worker>
    requires Enabled(s, step, now, reuse)
  {
    match step
    case Arrive(w, key, checkedAt) =>
      var v := Take(s.store, key, false, checkedAt, now, reuse);
      if v.route.Some? then Assigned(s, w, key, v.route.value, v.store)
      else if Deferred(s, key, checkedAt, now, reuse) then s.workers[w := Waiting(key, None)]
      else s.workers
    case DecideRoute(w, checkedAt) =>
      var v := Take(s.store, s.workers[w].key, true, checkedAt, now, reuse);
      if v.route.Some? then Assigned(s, w, s.workers[w].key, v.route.value, v.store) else s.workers - {w}
    case GiveUp(w) => s.workers - {w}
    case TunnelAnswered(w) => s.workers - {w}
    case Vet(w) => s.workers[w := Waiting(s.workers[w].key, Some(s.workers[w].generation))]
    case JudgeAnswer(w) =>
      if DirectAnswerUnsafe(s.store, s.workers[w].key, now) then s.workers - {w}
      else s.workers[w := Delivered(s.workers[w].key, s.workers[w].vetting.value)]
    case DirectEnded(w) => s.workers - {w}
    case _ => s.workers
  }

  function OutcomesAfter(s: Sys, step: Step, now: nat): map<nat, Outcome> {
    if !AtQuery(s.bar) then s.outcomes
    else if step.Drop? then s.outcomes[s.bar.cursor := Dropped(now)]
    else if !step.ReadQuery? then s.outcomes
    else
      var q := s.bar.log[s.bar.cursor].question;
      s.outcomes[s.bar.cursor := if Refused(s.store, q, now) then Turned(now)
                                 else Applied(MakeKey(q), now, s.store.generations + 1, step.evidence)]
  }

  /** Carries out an enabled step. */
  function Do(s: Sys, step: Step, now: nat, reuse: nat): Sys
    requires Enabled(s, step, now, reuse)
  {
    Sys(TraceBarrier.Do(s.bar, BarStep(s, step, now, reuse), now), StoreAfter(s, step, now, reuse),
      OutcomesAfter(s, step, now),
        WorkersAfter(s, step, now, reuse),
        if step.TunnelAnswered? then s.ended + {(s.workers[step.w].key, s.workers[step.w].generation)} else s.ended)
  }

  // --- What the consumer has handled ---

  /** An outcome fits the record it was reached for. */
  predicate Fits(what: TraceBarrier.What, o: Outcome) {
    && what.Query? && what.at <= o.at && (o.Dropped? <==> !Legible(what))
    && (o.Applied? ==> o.key == MakeKey(what.question) && (what.chosen ==> o.evidence != Unselected))
  }

  ghost predicate Handled(b: TraceBarrier.Bar, outcomes: map<nat, Outcome>) {
    && (forall i :: i in outcomes ==> i < |b.log| && Fits(b.log[i], outcomes[i]) && outcomes[i].at <= b.clock)
    && (forall i :: 0 <= i < |b.log| && i < |b.fates| && b.log[i].Query? && b.fates[i] == TraceBarrier.Handled
          ==> i in outcomes)
  }

  lemma ReadKeepsHandled(b: TraceBarrier.Bar, outcomes: map<nat, Outcome>, o: Outcome, now: nat)
    requires TraceBarrier.Bounded(b) && Handled(b, outcomes) && AtQuery(b) && b.clock <= now
    requires Fits(b.log[b.cursor], o) && o.at == now
    ensures Handled(TraceBarrier.Do(b, TraceBarrier.Read, now), outcomes[b.cursor := o])
  {
  }

  lemma OtherKeepsHandled(b: TraceBarrier.Bar, outcomes: map<nat, Outcome>, step: TraceBarrier.Step, now: nat)
    requires TraceBarrier.Bounded(b) && Handled(b, outcomes) && TraceBarrier.Enabled(b, step, now)
    requires step.Read? ==> !AtQuery(b)
    ensures Handled(TraceBarrier.Do(b, step, now), outcomes)
  {
  }

  // --- What the table holds for each event the consumer handled ---

  ghost predicate Ended(ended: set<(Key, nat)>, key: Key, generation: nat) {
    exists g :: generation <= g && (key, g) in ended
  }

  /** Tunnel evidence at least as new as `generation`, waiting for its own answer until `until`. */
  predicate Kept(e: Option<Entry>, generation: nat, until: nat) {
    e.Some? && e.value.tunnel && !e.value.answered && generation <= e.value.generation && until <= e.value.expires
  }

  /** No worker still acts on a direct decision for `key` made at `generation` or later. */
  ghost predicate NoDirect(workers: map<nat, Worker>, key: Key, generation: nat) {
    forall w :: w in workers && workers[w].key == key && DirectGeneration(workers[w]).Some? ==>
      DirectGeneration(workers[w]).value < generation
  }

  /** What keeps a name off the direct route until the lifetime of an event's outcome is over. */
  ghost predicate Guarded(s: Sys, o: Outcome) {
    match o
    case Dropped(_) => true
    case Turned(at) => at + LIFETIME <= s.store.overloadedUntil
    case Applied(key, at, generation, evidence) =>
      s.bar.clock < at + LIFETIME ==>
        match evidence
        case Unselected => true
        case Unidentified => Quarantined(View(s.store, key), at + LIFETIME)
        case Selected =>
          Ended(s.ended, key, generation) ||
          (Kept(View(s.store, key), generation, at + LIFETIME) && NoDirect(s.workers, key, generation))
  }

  /** Every generation in use has been assigned, and no block outlasts a lifetime. */
  ghost predicate Current(s: Sys) {
    && s.store.overloadedUntil <= s.bar.clock + LIFETIME
    && (s.bar.lastReport.Some? ==> s.bar.lastReport.value + LIFETIME <= s.store.directBlockedUntil)
    && (forall k :: k in s.store.hints ==> s.store.hints[k].generation <= s.store.generations)
    && Numbered(s.workers, s.store.generations)
    && KeysWritable(s.store, s.workers)
  }

  /** Entries and direct decisions are for names that someone can write legibly. */
  ghost predicate KeysWritable(store: Store, workers: map<nat, Worker>) {
    && (forall k :: k in store.hints ==> Writable(k))
    && (forall w :: w in workers && DirectGeneration(workers[w]).Some? ==> Writable(workers[w].key))
  }

  ghost predicate Numbered(workers: map<nat, Worker>, generations: nat) {
    forall w :: w in workers && DirectGeneration(workers[w]).Some? ==> DirectGeneration(workers[w]).value <= generations
  }

  ghost predicate Inv(s: Sys) {
    TraceBarrier.Inv(s.bar) && Handled(s.bar, s.outcomes) && Current(s) &&
    forall i :: i in s.outcomes ==> Protected(s, s.outcomes[i])
  }

  /** The outcome still guards its name, and its generation has been assigned. */
  ghost predicate Protected(s: Sys, o: Outcome) {
    Guarded(s, o) && (o.Applied? ==> o.generation <= s.store.generations)
  }

  lemma InitInv(s: Sys)
    requires Init(s)
    ensures Inv(s)
  {
    TraceBarrier.InitInv(s.bar);
  }

  // --- One step of the table ---

  lemma ApplyKeepsWritable(store: Store, o: Timed, reuse: nat)
    requires forall k :: k in store.hints ==> Writable(k)
    ensures forall k :: k in Apply(store, o, reuse).hints ==> Writable(k)
  {
    forall k | k in Apply(store, o, reuse).hints ensures Writable(k) {
      ApplyMoves(store, o, k, reuse);
      if k !in store.hints { SpellingIsShortest(o.op.question.name); }
    }
  }

  lemma GenerationsGrow(store: Store, o: Timed, reuse: nat)
    ensures store.generations <= Apply(store, o, reuse).generations
    ensures o.op.Event? && !Refused(store, o.op.question, o.now) ==>
              store.generations < Apply(store, o, reuse).generations
  {
  }

  lemma MoveKeepsGeneration(e: Option<Entry>, m: Move, now: nat, reuse: nat, before: nat, after: nat)
    requires before <= after && (e.Some? ==> e.value.generation <= before)
    requires m.Noted? ==> m.generation <= after
    ensures Moved(e, m, now, reuse).Some? ==> Moved(e, m, now, reuse).value.generation <= after
  {
  }

  lemma ApplyGenerations(store: Store, o: Timed, reuse: nat)
    requires forall k :: k in store.hints ==> store.hints[k].generation <= store.generations
    ensures store.generations <= Apply(store, o, reuse).generations
    ensures forall k :: k in Apply(store, o, reuse).hints ==>
              Apply(store, o, reuse).hints[k].generation <= Apply(store, o, reuse).generations
  {
    var after := Apply(store, o, reuse);
    GenerationsGrow(store, o, reuse);
    forall k | k in after.hints ensures after.hints[k].generation <= after.generations {
      ApplyMoves(store, o, k, reuse);
      MoveKeepsGeneration(View(store, k), MoveOf(store, o, k), o.now, reuse, store.generations, after.generations);
    }
  }

  lemma MoveKeepsKept(e: Option<Entry>, m: Move, o: Timed, key: Key, generation: nat, until: nat, reuse: nat)
    requires Kept(e, generation, until) && o.now < until && Allowed(e, m, o, key)
    requires m.Finished? ==> !m.current
    requires m.Noted? ==> generation <= m.generation
    ensures Kept(Moved(e, m, o.now, reuse), generation, until)
  {
  }

  lemma KeptRoutesToTunnel(store: Store, key: Key, generation: nat, until: nat, checkedAt: nat, now: nat, reuse: nat)
    requires Kept(View(store, key), generation, until) && now < until
    ensures Take(store, key, true, checkedAt, now, reuse).route != Some(ToDirect)
    ensures DirectAnswerUnsafe(store, key, now)
  {
    assert View(Expire(store, now), key) == View(store, key);
  }

  /** A direct route is new only where a barrier decision just gave it. */
  lemma DirectIsOldOrDecided(s: Sys, step: Step, now: nat, reuse: nat, w: nat)
    requires Enabled(s, step, now, reuse)
    requires w in WorkersAfter(s, step, now, reuse) && DirectGeneration(WorkersAfter(s, step, now, reuse)[w]).Some?
    ensures var after := WorkersAfter(s, step, now, reuse)[w];
      || (w in s.workers && s.workers[w].key == after.key && DirectGeneration(s.workers[w]) == DirectGeneration(after))
      || (step.DecideRoute? && step.w == w && after.key == s.workers[w].key &&
          Take(s.store, after.key, true, step.checkedAt, now, reuse).route == Some(ToDirect) &&
          after.key in StoreAfter(s, step, now, reuse).hints &&
          DirectGeneration(after) == Some(StoreAfter(s, step, now, reuse).hints[after.key].generation))
  {
    if step.Arrive? {
      assert Rule(View(Expire(s.store, now), step.key), false, now, reuse).route != Some(ToDirect);
    }
  }

  // --- Every step keeps the guard of every outcome ---

  lemma SelectedEntryStays(s: Sys, step: Step, now: nat, reuse: nat, key: Key, generation: nat, until: nat)
    requires Enabled(s, step, now, reuse) && now < until
    requires Kept(View(s.store, key), generation, until) && NoDirect(s.workers, key, generation)
    requires generation <= s.store.generations
    ensures Ended(Do(s, step, now, reuse).ended, key, generation) ||
              Kept(View(StoreAfter(s, step, now, reuse), key), generation, until)
  {
    var op := OpOf(s, step);
    if op.Some? {
      var o := Timed(op.value, now);
      var m := MoveOf(s.store, o, key);
      ApplyMoves(s.store, o, key, reuse);
      if m.Finished? && m.current {
        assert step.TunnelAnswered?;
        assert (key, s.workers[step.w].generation) in Do(s, step, now, reuse).ended;
      } else {
        MoveKeepsKept(View(s.store, key), m, o, key, generation, until, reuse);
      }
    }
  }

  lemma SelectedHoldersStay(s: Sys, step: Step, now: nat, reuse: nat, key: Key, generation: nat, until: nat)
    requires Enabled(s, step, now, reuse) && now < until
    requires Kept(View(s.store, key), generation, until) && NoDirect(s.workers, key, generation)
    ensures NoDirect(WorkersAfter(s, step, now, reuse), key, generation)
  {
    var after := WorkersAfter(s, step, now, reuse);
    forall w | w in after && after[w].key == key && DirectGeneration(after[w]).Some?
      ensures DirectGeneration(after[w]).value < generation
    {
      DirectIsOldOrDecided(s, step, now, reuse, w);
      if step.DecideRoute? { KeptRoutesToTunnel(s.store, key, generation, until, step.checkedAt, now, reuse); }
    }
  }

  lemma GuardStays(s: Sys, step: Step, now: nat, reuse: nat, o: Outcome)
    requires Enabled(s, step, now, reuse) && Guarded(s, o) && Current(s)
    requires o.at <= s.bar.clock && (o.Applied? ==> o.generation <= s.store.generations)
    ensures Guarded(Do(s, step, now, reuse), o)
  {
    var s' := Do(s, step, now, reuse);
    match o
    case Dropped(_) =>
    case Turned(at) =>
    case Applied(key, at, generation, evidence) =>
      if now < at + LIFETIME {
        match evidence
        case Unselected =>
        case Unidentified =>
          if OpOf(s, step).Some? {
            QuarantineStep(s.store, Timed(OpOf(s, step).value, now), key, at + LIFETIME, reuse);
          }
        case Selected =>
          if Ended(s.ended, key, generation) {
            var g :| generation <= g && (key, g) in s.ended;
            assert (key, g) in s'.ended;
          } else {
            SelectedEntryStays(s, step, now, reuse, key, generation, at + LIFETIME);
            SelectedHoldersStay(s, step, now, reuse, key, generation, at + LIFETIME);
          }
      }
  }

  lemma NewOutcomeIsGuarded(s: Sys, evidence: Evidence, now: nat, reuse: nat)
    requires Enabled(s, ReadQuery(evidence), now, reuse) && Current(s)
    ensures var s' := Do(s, ReadQuery(evidence), now, reuse);
            s.bar.cursor in s'.outcomes && Guarded(s', s'.outcomes[s.bar.cursor])
  {
    var q := s.bar.log[s.bar.cursor].question;
    ApplyMoves(s.store, Timed(Event(q, evidence), now), MakeKey(q), reuse);
  }

  lemma StoreKeepsCurrent(s: Sys, step: Step, now: nat, reuse: nat)
    requires Current(s) && Enabled(s, step, now, reuse)
    ensures var store := StoreAfter(s, step, now, reuse);
            && s.store.generations <= store.generations
            && (forall k :: k in store.hints ==> store.hints[k].generation <= store.generations && Writable(k))
  {
    if OpOf(s, step).Some? {
      ApplyGenerations(s.store, Timed(OpOf(s, step).value, now), reuse);
      ApplyKeepsWritable(s.store, Timed(OpOf(s, step).value, now), reuse);
    }
  }

  lemma WorkersStayCurrent(s: Sys, step: Step, now: nat, reuse: nat)
    requires Current(s) && Enabled(s, step, now, reuse)
    ensures Numbered(WorkersAfter(s, step, now, reuse), StoreAfter(s, step, now, reuse).generations)
    ensures KeysWritable(StoreAfter(s, step, now, reuse), WorkersAfter(s, step, now, reuse))
  {
    StoreKeepsCurrent(s, step, now, reuse);
    var after := WorkersAfter(s, step, now, reuse);
    forall w | w in after && DirectGeneration(after[w]).Some?
      ensures DirectGeneration(after[w]).value <= StoreAfter(s, step, now, reuse).generations && Writable(after[w].key)
    {
      DirectIsOldOrDecided(s, step, now, reuse, w);
    }
  }

  lemma DoKeepsCurrent(s: Sys, step: Step, now: nat, reuse: nat)
    requires Current(s) && Enabled(s, step, now, reuse)
    ensures Current(Do(s, step, now, reuse))
  {
    StoreKeepsCurrent(s, step, now, reuse);
    WorkersStayCurrent(s, step, now, reuse);
  }

  lemma DoKeepsHandled(s: Sys, step: Step, now: nat, reuse: nat)
    requires Inv(s) && Enabled(s, step, now, reuse)
    ensures Handled(Do(s, step, now, reuse).bar, Do(s, step, now, reuse).outcomes)
  {
    var s' := Do(s, step, now, reuse);
    if step.ReadQuery? || step.Drop? {
      ReadKeepsHandled(s.bar, s.outcomes, s'.outcomes[s.bar.cursor], now);
    } else {
      OtherKeepsHandled(s.bar, s.outcomes, BarStep(s, step, now, reuse), now);
    }
  }

  lemma OldOutcomeStaysProtected(s: Sys, step: Step, now: nat, reuse: nat, i: nat)
    requires Inv(s) && Enabled(s, step, now, reuse) && i in s.outcomes
    ensures Protected(Do(s, step, now, reuse), s.outcomes[i])
  {
    GuardStays(s, step, now, reuse, s.outcomes[i]);
    if OpOf(s, step).Some? { ApplyGenerations(s.store, Timed(OpOf(s, step).value, now), reuse); }
  }

  lemma NewOutcomeIsProtected(s: Sys, evidence: Evidence, now: nat, reuse: nat)
    requires Inv(s) && Enabled(s, ReadQuery(evidence), now, reuse)
    ensures var s' := Do(s, ReadQuery(evidence), now, reuse);
            s.bar.cursor in s'.outcomes && Protected(s', s'.outcomes[s.bar.cursor])
  {
    NewOutcomeIsGuarded(s, evidence, now, reuse);
  }

  lemma DoKeepsProtected(s: Sys, step: Step, now: nat, reuse: nat, i: nat)
    requires Inv(s) && Enabled(s, step, now, reuse) && i in Do(s, step, now, reuse).outcomes
    ensures Protected(Do(s, step, now, reuse), Do(s, step, now, reuse).outcomes[i])
  {
    if step.ReadQuery? && i == s.bar.cursor {
      NewOutcomeIsProtected(s, step.evidence, now, reuse);
    } else if !step.Drop? || i != s.bar.cursor {
      OldOutcomeStaysProtected(s, step, now, reuse, i);
    }
  }

  lemma DoKeepsInv(s: Sys, step: Step, now: nat, reuse: nat)
    requires Inv(s) && Enabled(s, step, now, reuse)
    ensures Inv(Do(s, step, now, reuse))
  {
    var s' := Do(s, step, now, reuse);
    TraceBarrier.DoKeepsInv(s.bar, BarStep(s, step, now, reuse), now);
    DoKeepsHandled(s, step, now, reuse);
    DoKeepsCurrent(s, step, now, reuse);
    forall i | i in s'.outcomes ensures Protected(s', s'.outcomes[i]) { DoKeepsProtected(s, step, now, reuse, i); }
  }

  // --- Every run ---

  ghost predicate Next(s: Sys, s': Sys, reuse: nat) {
    exists step, now :: Enabled(s, step, now, reuse) && s' == Do(s, step, now, reuse)
  }

  ghost predicate Run(run: seq<Sys>, reuse: nat) {
    run != [] && Init(run[0]) && forall i :: 0 <= i < |run| - 1 ==> Next(run[i], run[i + 1], reuse)
  }

  lemma NextKeepsInv(s: Sys, s': Sys, reuse: nat)
    requires Inv(s) && Next(s, s', reuse)
    ensures Inv(s')
  {
    var step, now :| Enabled(s, step, now, reuse) && s' == Do(s, step, now, reuse);
    DoKeepsInv(s, step, now, reuse);
  }

  lemma RunShortens(run: seq<Sys>, reuse: nat)
    requires Run(run, reuse) && |run| > 1
    ensures Run(run[..|run| - 1], reuse)
  {
    var shorter := run[..|run| - 1];
    forall i | 0 <= i < |shorter| - 1 ensures Next(shorter[i], shorter[i + 1], reuse) {
      assert Next(run[i], run[i + 1], reuse);
    }
  }

  lemma {:induction false} RunKeepsInv(run: seq<Sys>, reuse: nat)
    requires Run(run, reuse)
    ensures Inv(run[|run| - 1])
    decreases |run|
  {
    var last := |run| - 1;
    if last == 0 {
      InitInv(run[0]);
    } else {
      assert Next(run[last - 1], run[last], reuse);
      RunShortens(run, reuse);
      RunKeepsInv(run[..last], reuse);
      NextKeepsInv(run[last - 1], run[last], reuse);
    }
  }

  /** The event was applied as selected evidence, and a tunnel exchange decided on it or on newer evidence
      has been answered. */
  ghost predicate ClaimedAndEnded(s: Sys, i: nat, key: Key) {
    i in s.outcomes && s.outcomes[i].Applied? && s.outcomes[i].evidence == Selected &&
    Ended(s.ended, key, s.outcomes[i].generation)
  }

  /** What a handled event of a selected program left keeps its name off the direct route. */
  lemma OutcomeBlocksDirect(s: Sys, what: TraceBarrier.What, o: Outcome, checkedAt: nat, now: nat, reuse: nat)
    requires Fits(what, o) && Guarded(s, o) && Legible(what) && what.chosen
    requires s.bar.clock <= checkedAt <= now < what.at + LIFETIME
    ensures var key := MakeKey(what.question);
            || (o.Applied? && o.evidence == Selected && Ended(s.ended, key, o.generation))
            || (Take(s.store, key, true, checkedAt, now, reuse).route != Some(ToDirect) &&
                DirectAnswerUnsafe(s.store, key, now))
  {
    if o.Applied? && o.evidence == Selected && !Ended(s.ended, o.key, o.generation) {
      KeptRoutesToTunnel(s.store, o.key, o.generation, o.at + LIFETIME, checkedAt, now, reuse);
    }
  }

  /** A loss report keeps every name off the direct route. */
  lemma BlockBlocksDirect(store: Store, key: Key, checkedAt: nat, now: nat, reuse: nat)
    requires now < store.directBlockedUntil
    ensures Take(store, key, true, checkedAt, now, reuse).route != Some(ToDirect) && DirectAnswerUnsafe(store, key, now)
  {
  }

  lemma LoggedEventBlocksDirect(s: Sys, w: nat, i: nat, checkedAt: nat, now: nat, reuse: nat)
    requires Inv(s) && Waits(s, w) && TraceBarrier.Passed(s.bar, w) && s.bar.clock <= checkedAt <= now
    requires i < s.bar.tickets[w].mark && i < |s.bar.log|
    requires Legible(s.bar.log[i]) && s.bar.log[i].chosen && now < s.bar.log[i].at + LIFETIME
    ensures var key := MakeKey(s.bar.log[i].question);
            || ClaimedAndEnded(s, i, key)
            || (Take(s.store, key, true, checkedAt, now, reuse).route != Some(ToDirect) &&
                DirectAnswerUnsafe(s.store, key, now))
  {
    var key := MakeKey(s.bar.log[i].question);
    TraceBarrier.BarrierCovers(s.bar, w, i);
    if s.bar.fates[i] == TraceBarrier.Handled {
      OutcomeBlocksDirect(s, s.bar.log[i], s.outcomes[i], checkedAt, now, reuse);
    } else {
      BlockBlocksDirect(s.store, key, checkedAt, now, reuse);
    }
  }

  /** A selected program's event for the key, less than a lifetime ago. */
  predicate Concerns(what: TraceBarrier.What, key: Key, now: nat) {
    what.Query? && what.chosen && MakeKey(what.question) == key && now < what.at + LIFETIME
  }

  lemma UnwritableIsNotDirect(s: Sys, key: Key, checkedAt: nat, now: nat, reuse: nat)
    requires Current(s) && !Writable(key)
    ensures Take(s.store, key, true, checkedAt, now, reuse).route != Some(ToDirect)
  {
    assert key !in s.store.hints;
  }

  /** In every run: a barrier decision is direct only if each selected program's event for the name, logged
      before the packet's sequence was assigned and less than a lifetime ago, was claimed by a tunnel exchange
      that has ended. The event may have been delivered, lost, unresolvable or refused for capacity, but not
      overlooked; `OrderingGaps.OverlookedEventIsMissed` shows that condition is exact. */
  lemma DirectDecisionIsSafe(run: seq<Sys>, w: nat, i: nat, checkedAt: nat, now: nat, reuse: nat)
    requires Run(run, reuse)
    requires var s := run[|run| - 1];
             Enabled(s, DecideRoute(w, checkedAt), now, reuse) &&
               Holds(Do(s, DecideRoute(w, checkedAt), now, reuse), w, ToDirect)
    requires var s := run[|run| - 1];
             i < s.bar.tickets[w].mark && i < |s.bar.log| && Concerns(s.bar.log[i], s.workers[w].key, now)
    requires !Overlooked(run[|run| - 1].bar.log[i])
    ensures ClaimedAndEnded(run[|run| - 1], i, run[|run| - 1].workers[w].key)
  {
    RunKeepsInv(run, reuse);
    var s := run[|run| - 1];
    if Legible(s.bar.log[i]) {
      LoggedEventBlocksDirect(s, w, i, checkedAt, now, reuse);
    } else {
      UnwritableIsNotDirect(s, s.workers[w].key, checkedAt, now, reuse);
    }
  }

  /** In every run: the same holds of a direct answer that is delivered, for every event logged before the
      answer's own barrier sequence was assigned. */
  lemma DeliveredAnswerIsSafe(run: seq<Sys>, w: nat, i: nat, now: nat, reuse: nat)
    requires Run(run, reuse)
    requires var s := run[|run| - 1];
             Enabled(s, JudgeAnswer(w), now, reuse) &&
             w in Do(s, JudgeAnswer(w), now, reuse).workers && Do(s, JudgeAnswer(w), now, reuse).workers[w].Delivered?
    requires var s := run[|run| - 1];
             i < s.bar.tickets[w].mark && i < |s.bar.log| && Concerns(s.bar.log[i], s.workers[w].key, now)
    requires !Overlooked(run[|run| - 1].bar.log[i])
    ensures ClaimedAndEnded(run[|run| - 1], i, run[|run| - 1].workers[w].key)
  {
    RunKeepsInv(run, reuse);
    var s := run[|run| - 1];
    if Legible(s.bar.log[i]) { LoggedEventBlocksDirect(s, w, i, now, now, reuse); }
  }
}
