/** How long each kind of attribution evidence keeps a name off the direct route, over
    every sequence of table operations at non-decreasing times. */
module EvidenceLifetimes {
  import opened Options
  import opened Attribution

  datatype Op =
    | Event(question: Question, evidence: Evidence)
    | Loss
    | Choose(key: Key, allowDirect: bool, checked: nat)
    | Answer(key: Key, generation: Option<nat>)

  datatype Timed = Timed(op: Op, now: nat)

  function Apply(s: Store, o: Timed, reuse: nat): Store {
    match o.op
    case Event(q, evidence) => AddResolved(s, q, evidence, o.now, reuse)
    case Loss => LostEvents(s, o.now)
    case Choose(key, allowDirect, checked) => Take(s, key, allowDirect, checked, o.now, reuse).store
    case Answer(key, generation) => Complete(s, key, generation, o.now, reuse)
  }

  /** What an operation does to one name's entry. */
  datatype Move =
    | Stay
    | Vanish
    | Noted(evidence: Evidence, generation: nat)
    | Ruled(unblocked: bool)
    | Finished(current: bool)

  function Moved(e: Option<Entry>, m: Move, now: nat, reuse: nat): Option<Entry> {
    match m
    case Stay => e
    case Vanish => None
    case Noted(evidence, generation) => Some(Note(e, evidence, generation, now, reuse))
    case Ruled(unblocked) => Rule(e, unblocked, now, reuse).entry
    case Finished(current) => if e == None then None else Some(Finish(e.value, current, now, reuse))
  }

  /** An event for the key with this evidence. */
  predicate IsEvent(op: Op, key: Key, evidence: Evidence) {
    op.Event? && MakeKey(op.question) == key && op.evidence == evidence
  }

  /** An entry vanishes only at the end of its lifetime or, without evidence to keep, at a loss. */
  predicate Allowed(e: Option<Entry>, m: Move, o: Timed, key: Key) {
    (m.Vanish? && e.Some? ==> e.value.expires <= o.now || (o.op == Loss && Forgettable(e.value, o.now))) &&
    (m.Noted? ==> IsEvent(o.op, key, m.evidence))
  }

  function Sweep(s: Store, key: Key, now: nat): Move {
    if key in s.hints && now >= s.nextExpiry && s.hints[key].expires <= now then Vanish else Stay
  }

  function MoveOf(s: Store, o: Timed, key: Key): Move {
    match o.op
    case Event(q, evidence) =>
      if MakeKey(q) == key && !Refused(s, q, o.now) then Noted(evidence, s.generations + 1) else Sweep(s, key, o.now)
    case Loss => if key in s.hints && Forgettable(s.hints[key], o.now) then Vanish else Stay
    case Choose(k, allowDirect, checked) =>
      if checked < s.overloadedUntil then Stay
      else if k == key then Ruled(allowDirect && o.now >= s.directBlockedUntil)
      else Sweep(s, key, o.now)
    case Answer(k, generation) =>
      if k == key && key in s.hints
      then Finished(generation == None || generation == Some(s.hints[key].generation)) else Stay
  }

  lemma {:induction false} EventMoves(s: Store, o: Timed, key: Key, reuse: nat)
    requires o.op.Event?
    ensures View(Apply(s, o, reuse), key) == Moved(View(s, key), MoveOf(s, o, key), o.now, reuse)
    ensures Allowed(View(s, key), MoveOf(s, o, key), o, key)
  {
  }

  lemma {:induction false} ChoiceMoves(s: Store, o: Timed, key: Key, reuse: nat)
    requires o.op.Choose?
    ensures View(Apply(s, o, reuse), key) == Moved(View(s, key), MoveOf(s, o, key), o.now, reuse)
    ensures Allowed(View(s, key), MoveOf(s, o, key), o, key)
  {
  }

  /** Every operation acts on each name by one such move. */
  lemma {:induction false} ApplyMoves(s: Store, o: Timed, key: Key, reuse: nat)
    ensures View(Apply(s, o, reuse), key) == Moved(View(s, key), MoveOf(s, o, key), o.now, reuse)
    ensures Allowed(View(s, key), MoveOf(s, o, key), o, key)
  {
    match o.op
    case Event(_, _) => EventMoves(s, o, key, reuse);
    case Choose(_, _, _) => ChoiceMoves(s, o, key, reuse);
    case Loss =>
    case Answer(_, _) =>
  }

  function After(s: Store, ops: seq<Timed>, reuse: nat): Store
    decreases |ops|
  {
    if ops == [] then s else After(Apply(s, ops[0], reuse), ops[1..], reuse)
  }

  /** The operations follow `clock` and one another in time. */
  predicate Ordered(clock: nat, ops: seq<Timed>)
    decreases |ops|
  {
    ops == [] ||
    (clock <= ops[0].now && (ops[0].op.Choose? ==> clock <= ops[0].op.checked <= ops[0].now) &&
     Ordered(ops[0].now, ops[1..]))
  }

  function Clock(clock: nat, ops: seq<Timed>): nat
    decreases |ops|
  {
    if ops == [] then clock else Clock(ops[0].now, ops[1..])
  }

  // --- What every reachable table satisfies ---

  predicate SoundEntry(e: Entry, clock: nat, reuse: nat) {
    && (e.selected ==> e.tunnel)
    && (e.selectedAnswered ==> e.tunnel)
    && e.unknownUntil <= clock + LIFETIME && e.selectedAnsweredAt <= clock
    && e.expires <= Max(clock + LIFETIME, if e.selectedAnswered then e.selectedAnsweredAt + reuse else 0)
  }

  predicate Sound(s: Store, clock: nat, reuse: nat) {
    forall k :: k in s.hints ==> SoundEntry(s.hints[k], clock, reuse)
  }

  lemma {:induction false} MoveKeepsSound(e: Option<Entry>, m: Move, clock: nat, now: nat, reuse: nat)
    requires clock <= now && (e.Some? ==> SoundEntry(e.value, clock, reuse))
    ensures Moved(e, m, now, reuse).Some? ==> SoundEntry(Moved(e, m, now, reuse).value, now, reuse)
  {
  }

  lemma {:induction false} ApplyKeepsSound(s: Store, clock: nat, o: Timed, reuse: nat)
    requires Sound(s, clock, reuse) && Ordered(clock, [o])
    ensures Sound(Apply(s, o, reuse), o.now, reuse)
  {
    forall k | k in Apply(s, o, reuse).hints
      ensures SoundEntry(Apply(s, o, reuse).hints[k], o.now, reuse)
    {
      ApplyMoves(s, o, k, reuse);
      MoveKeepsSound(View(s, k), MoveOf(s, o, k), clock, o.now, reuse);
    }
  }

  lemma {:induction false} AfterKeepsSound(s: Store, clock: nat, ops: seq<Timed>, reuse: nat)
    requires Sound(s, clock, reuse) && Ordered(clock, ops)
    ensures Sound(After(s, ops, reuse), Clock(clock, ops), reuse)
    decreases |ops|
  {
    if ops != [] {
      ApplyKeepsSound(s, clock, ops[0], reuse);
      AfterKeepsSound(Apply(s, ops[0], reuse), ops[0].now, ops[1..], reuse);
    }
  }

  // --- An unidentified event quarantines its name ---

  predicate Quarantined(e: Option<Entry>, until: nat) {
    e.Some? && until <= e.value.unknownUntil && until <= e.value.expires
  }

  lemma {:induction false} QuarantineStep(s: Store, o: Timed, key: Key, until: nat, reuse: nat)
    requires Quarantined(View(s, key), until) && o.now < until <= o.now + LIFETIME
    ensures Quarantined(View(Apply(s, o, reuse), key), until)
  {
    ApplyMoves(s, o, key, reuse);
  }

  lemma {:induction false} QuarantineHolds(s: Store, key: Key, until: nat, clock: nat, ops: seq<Timed>, reuse: nat)
    requires Quarantined(View(s, key), until) && Ordered(clock, ops)
    requires until <= clock + LIFETIME && Clock(clock, ops) < until
    ensures Quarantined(View(After(s, ops, reuse), key), until)
    decreases |ops|
  {
    if ops != [] {
      ClockGrows(ops[0].now, ops[1..]);
      QuarantineStep(s, ops[0], key, until, reuse);
      QuarantineHolds(Apply(s, ops[0], reuse), key, until, ops[0].now, ops[1..], reuse);
    }
  }

  lemma {:induction false} ClockGrows(clock: nat, ops: seq<Timed>)
    requires Ordered(clock, ops)
    ensures clock <= Clock(clock, ops)
    decreases |ops|
  {
    if ops != [] { ClockGrows(ops[0].now, ops[1..]); }
  }

  /** Once an unidentified event is accepted at t, whatever happens next, no decision before
      t + LIFETIME is direct and no direct answer is delivered. */
  lemma {:induction false} UnidentifiedEventQuarantines(s: Store, q: Question, t: nat, ops: seq<Timed>,
                                                        checked: nat, d: nat, reuse: nat)
    requires !Refused(s, q, t)
    requires Ordered(t, ops) && Clock(t, ops) <= checked <= d < t + LIFETIME
    ensures var s' := After(AddResolved(s, q, Unidentified, t, reuse), ops, reuse);
            && Take(s', MakeKey(q), true, checked, d, reuse).route != Some(ToDirect)
            && DirectAnswerUnsafe(s', MakeKey(q), d)
  {
    QuarantineHolds(AddResolved(s, q, Unidentified, t, reuse), MakeKey(q), t + LIFETIME, t, ops, reuse);
  }

  // --- A selected exchange shadows direct routes for the reuse window ---

  predicate Shadowed(e: Option<Entry>, since: nat, reuse: nat) {
    e.Some? && e.value.tunnel && e.value.selectedAnswered &&
    since <= e.value.selectedAnsweredAt && since + reuse <= e.value.expires
  }

  lemma {:induction false} ShadowHolds(s: Store, key: Key, since: nat, clock: nat, ops: seq<Timed>, reuse: nat)
    requires Shadowed(View(s, key), since, reuse) && Ordered(clock, ops)
    requires since <= clock && Clock(clock, ops) < since + reuse
    ensures Shadowed(View(After(s, ops, reuse), key), since, reuse)
    decreases |ops|
  {
    if ops != [] {
      ClockGrows(ops[0].now, ops[1..]);
      ApplyMoves(s, ops[0], key, reuse);
      ShadowHolds(Apply(s, ops[0], reuse), key, since, ops[0].now, ops[1..], reuse);
    }
  }

  lemma ShadowDecides(s: Store, key: Key, since: nat, allowDirect: bool, d: nat, reuse: nat)
    requires Shadowed(View(s, key), since, reuse) && d < since + reuse
    ensures Decide(s, key, allowDirect, d, reuse).route == Some(ToTunnel) && DirectAnswerUnsafe(s, key, d)
  {
    assert View(Expire(s, d), key) == View(s, key);
  }

  /** An exchange that complete() records as a selected tunnel exchange at c keeps the name on the
      tunnel until c + reuse: every decision finds tunnel evidence and no direct answer is delivered. */
  lemma {:induction false} SelectedExchangeShadowsDirect(history: seq<Timed>, key: Key, generation: Option<nat>, c: nat,
                                      ops: seq<Timed>, allowDirect: bool, d: nat, reuse: nat)
    requires Ordered(0, history) && Clock(0, history) <= c
    requires var s := After(EMPTY, history, reuse);
             key in s.hints && s.hints[key].decision == Tunnel && s.hints[key].selected
    requires Ordered(c, ops) && Clock(c, ops) <= d < c + reuse
    ensures var s' := After(Complete(After(EMPTY, history, reuse), key, generation, c, reuse), ops, reuse);
            Decide(s', key, allowDirect, d, reuse).route == Some(ToTunnel) && DirectAnswerUnsafe(s', key, d)
  {
    AfterKeepsSound(EMPTY, 0, history, reuse);
    var s := Complete(After(EMPTY, history, reuse), key, generation, c, reuse);
    ShadowHolds(s, key, c, c, ops, reuse);
    ShadowDecides(After(s, ops, reuse), key, c, allowDirect, d, reuse);
  }

  // --- A loss report discards every earlier direct hint ---

  /** No direct evidence for `key` predates the loss at `lost` and can still be decided on. */
  predicate Spent(e: Entry, lost: nat) {
    e.tunnel || (!e.direct && e.decision != Direct) || e.expires <= Max(lost + LIFETIME, e.unknownUntil)
  }

  predicate Discarded(s: Store, key: Key, lost: nat) {
    lost + LIFETIME <= s.directBlockedUntil && (key in s.hints ==> Spent(s.hints[key], lost))
  }

  predicate AcceptsDirect(s: Store, o: Timed, key: Key) {
    IsEvent(o.op, key, Unselected) && !Refused(s, o.op.question, o.now)
  }

  lemma {:induction false} MoveKeepsSpent(e: Option<Entry>, m: Move, lost: nat, clock: nat, now: nat, reuse: nat)
    requires lost <= clock <= now
    requires e.Some? ==> SoundEntry(e.value, clock, reuse) && Spent(e.value, lost)
    requires m.Noted? ==> m.evidence != Unselected
    requires m.Ruled? && m.unblocked ==> lost + LIFETIME <= now
    ensures Moved(e, m, now, reuse).Some? ==> Spent(Moved(e, m, now, reuse).value, lost)
  {
  }

  lemma {:induction false} DiscardedStep(s: Store, key: Key, lost: nat, clock: nat, o: Timed, reuse: nat)
    requires Discarded(s, key, lost) && Sound(s, clock, reuse) && lost <= clock && Ordered(clock, [o])
    ensures AcceptsDirect(s, o, key) || Discarded(Apply(s, o, reuse), key, lost)
  {
    ApplyMoves(s, o, key, reuse);
    if !AcceptsDirect(s, o, key) {
      MoveKeepsSpent(View(s, key), MoveOf(s, o, key), lost, clock, o.now, reuse);
    }
  }

  lemma {:induction false} DiscardedUntilAccepted(s: Store, key: Key, lost: nat, clock: nat, ops: seq<Timed>,
                                                  reuse: nat)
    returns (at: nat)
    requires Discarded(s, key, lost) && Sound(s, clock, reuse) && lost <= clock && Ordered(clock, ops)
    ensures lost + LIFETIME <= After(s, ops, reuse).directBlockedUntil
    ensures at <= |ops|
    ensures at < |ops| ==> AcceptsDirect(After(s, ops[..at], reuse), ops[at], key)
    ensures at == |ops| ==> Discarded(After(s, ops, reuse), key, lost)
    decreases |ops|
  {
    if ops == [] { return 0; }
    DiscardedStep(s, key, lost, clock, ops[0], reuse);
    ApplyKeepsSound(s, clock, ops[0], reuse);
    var next := Apply(s, ops[0], reuse);
    if AcceptsDirect(s, ops[0], key) {
      BlockGrows(next, lost, ops[0].now, ops[1..], reuse);
      return 0;
    }
    at := DiscardedUntilAccepted(next, key, lost, ops[0].now, ops[1..], reuse);
    at := at + 1;
    if at < |ops| { assert ops[..at][1..] == ops[1..][..at - 1]; }
  }

  lemma {:induction false} BlockGrows(s: Store, lost: nat, clock: nat, ops: seq<Timed>, reuse: nat)
    requires lost + LIFETIME <= s.directBlockedUntil && lost <= clock && Ordered(clock, ops)
    ensures lost + LIFETIME <= After(s, ops, reuse).directBlockedUntil
    decreases |ops|
  {
    if ops != [] { BlockGrows(Apply(s, ops[0], reuse), lost, ops[0].now, ops[1..], reuse); }
  }

  /** After a loss report, a direct decision comes a full lifetime later and rests on a direct event
      accepted after the report, in every history and continuation. */
  lemma {:induction false} DirectAfterLossRestsOnNewEvent(history: seq<Timed>, lost: nat, ops: seq<Timed>, key: Key,
                                       checked: nat, d: nat, reuse: nat) returns (at: nat)
    requires Ordered(0, history) && Clock(0, history) <= lost
    requires Ordered(lost, ops) && Clock(lost, ops) <= checked <= d
    requires var s := LostEvents(After(EMPTY, history, reuse), lost);
             Take(After(s, ops, reuse), key, true, checked, d, reuse).route == Some(ToDirect)
    ensures lost + LIFETIME <= d
    ensures at < |ops|
    ensures AcceptsDirect(After(LostEvents(After(EMPTY, history, reuse), lost), ops[..at], reuse), ops[at], key)
  {
    var before := After(EMPTY, history, reuse);
    AfterKeepsSound(EMPTY, 0, history, reuse);
    var s := LostEvents(before, lost);
    assert Sound(s, lost, reuse);
    assert key in s.hints ==> SoundEntry(before.hints[key], Clock(0, history), reuse);
    at := DiscardedUntilAccepted(s, key, lost, lost, ops, reuse);
  }

  // --- Evidence is also enough ---

  /** With no live entry for the name and no block, one event alone decides the route for its whole lifetime: an
      unselected program's goes direct, a selected one's to the tunnel, and an unidentified one's nowhere. */
  lemma FreshEventDecides(s: Store, q: Question, evidence: Evidence, t: nat, checked: nat, d: nat, reuse: nat)
    requires !Refused(s, q, t) && (MakeKey(q) in s.hints ==> s.hints[MakeKey(q)].expires <= t) && t <= d < t + LIFETIME
    requires s.overloadedUntil <= checked && s.directBlockedUntil <= d
    ensures Take(AddResolved(s, q, evidence, t, reuse), MakeKey(q), true, checked, d, reuse).route ==
            match evidence
            case Unselected => Some(ToDirect)
            case Selected => Some(ToTunnel)
            case Unidentified => None
  {
    var key := MakeKey(q);
    var s' := AddResolved(s, q, evidence, t, reuse);
    assert View(s', key).Some? && s'.hints[key].expires == t + LIFETIME;
    assert View(Expire(s', d), key) == View(s', key);
  }
}
