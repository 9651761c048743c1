/** The ordering barrier between the event trace and the query workers.

    Programs log query events and workers log sentinels into one trace; the consumer reads
    surviving records in logging order, the flusher asks for and reports losses, and any number of
    workers take a sequence number, write its sentinel and wait. Every step is one critical section
    (or one trace call) of the source at a non-decreasing clock, in any interleaving.

    Assumed of the trace: surviving records arrive in logging order; when a flush returns, its loss
    counters include every lost record that was logged before it began, and no such record is lost
    later. Records that no flush has covered may be lost at any time before they are read. */
module TraceBarrier {
  import opened Options
  import opened Attribution

  /** `whole` says a query event carries a terminated name and a type; `chosen` that its program is in the included
      set. */
  datatype What = Query(question: Question, whole: bool, chosen: bool, at: nat) | Sentinel(number: nat)

  datatype Fate = InFlight | Missing | Handled

  datatype Flusher = Idle | Flushing(covered: nat, length: nat) | Reporting(covered: nat) | Confirming(covered: nat)

  /** A waiting worker's sequence number, the log length when it was assigned, and whether its sentinel is written. */
  datatype Ticket = Ticket(number: nat, mark: nat, written: bool)

  datatype Bar = Bar(
    clock: nat, log: seq<What>, fates: seq<Fate>, cursor: nat, losses: nat, settled: nat,
    flusher: Flusher, seen: nat, confirmed: nat, lastReport: Option<nat>,
    sequence: nat, processed: nat, checked: nat, tickets: map<nat, Ticket>)

  datatype Step =
    | LogQuery(question: Question, whole: bool, chosen: bool)
    | Lose(index: nat)
    | Read
    | FlushBegin
    | FlushFail
    | FlushReturn
    | Report
    | Confirm
    | Queue(w: nat)
    | WriteSentinel(w: nat)
    | Leave(w: nat)
    | Tick

  predicate Init(b: Bar) {
    b == Bar(b.clock, [], [], 0, 0, 0, Idle, 0, 0, None, 0, 0, 0, map[])
  }

  /** The predicate a waiting worker wakes on. */
  predicate Passed(b: Bar, w: nat) {
    w in b.tickets && b.tickets[w].written && b.processed >= b.tickets[w].number && b.checked >= b.tickets[w].number
  }

  predicate Enabled(b: Bar, step: Step, now: nat) {
    b.clock <= now &&
    match step
    case LogQuery(_, _, _) => true
    case Lose(i) => b.settled <= i < |b.fates| && b.fates[i] == InFlight
    case Read => b.cursor < |b.log| && b.cursor < |b.fates| && b.fates[b.cursor] != Handled
    case FlushBegin => b.flusher == Idle
    case FlushFail => b.flusher.Flushing?
    case FlushReturn => b.flusher.Flushing?
    case Report => b.flusher.Reporting?
    case Confirm => b.flusher.Confirming?
    case Queue(w) => w !in b.tickets
    case WriteSentinel(w) => w in b.tickets && !b.tickets[w].written
    case Leave(w) => w in b.tickets
    case Tick => true
  }

  function Append(b: Bar, what: What): Bar {
    b.(log := b.log + [what], fates := b.fates + [InFlight])
  }

  /** The consumer's next surviving record; a lost one is passed over. */
  function ReadNext(b: Bar): Bar
    requires b.cursor < |b.log| && b.cursor < |b.fates|
  {
    if b.fates[b.cursor] == Missing then b.(cursor := b.cursor + 1)
    else
      var next := b.(fates := b.fates[b.cursor := Handled], cursor := b.cursor + 1);
      match b.log[b.cursor]
      case Sentinel(number) => next.(processed := Max(b.processed, number))
      case Query(_, _, _, _) => next
  }

  /** Carries out an enabled step at time `now`. */
  function Do(before: Bar, step: Step, now: nat): (after: Bar)
    requires Enabled(before, step, now)
    ensures after.clock == now && after.lastReport == if step.Report? then Some(now) else before.lastReport
  {
    var b := before.(clock := now);
    match step
    case LogQuery(question, whole, chosen) => Append(b, Query(question, whole, chosen, now))
    case Lose(i) => b.(fates := b.fates[i := Missing], losses := b.losses + 1)
    case Read => ReadNext(b)
    case FlushBegin => b.(flusher := Flushing(b.sequence, |b.log|))
    case FlushFail => b.(flusher := Idle)
    case FlushReturn =>
      b.(settled := Max(b.settled, b.flusher.length), seen := b.losses,
         flusher := if b.losses != b.seen then Reporting(b.flusher.covered) else Confirming(b.flusher.covered))
    case Report => b.(lastReport := Some(now), flusher := Confirming(b.flusher.covered))
    case Confirm => b.(checked := Max(b.checked, b.flusher.covered), confirmed := b.settled, flusher := Idle)
    case Queue(w) => b.(sequence := b.sequence + 1, tickets := b.tickets[w := Ticket(b.sequence + 1, |b.log|, false)])
    case WriteSentinel(w) =>
      Append(b, Sentinel(b.tickets[w].number)).(tickets := b.tickets[w := b.tickets[w].(written := true)])
    case Leave(w) => b.(tickets := b.tickets - {w})
    case Tick => b
  }

  // --- Sequence numbers order sentinels after everything logged before them ---

  predicate Bounded(b: Bar) {
    && b.cursor <= |b.log| == |b.fates| && b.confirmed <= b.settled <= |b.log| && b.seen <= b.losses
    && b.checked <= b.sequence
    && (b.flusher.Flushing? ==> b.flusher.length <= |b.log|)
    && (b.flusher != Idle ==> b.flusher.covered <= b.sequence)
    && (forall j :: 0 <= j < |b.log| && b.log[j].Sentinel? ==> 1 <= b.log[j].number <= b.sequence)
    && (forall j :: 0 <= j < |b.log| && b.log[j].Query? ==> b.log[j].at <= b.clock)
    && (forall j :: 0 <= j < b.cursor ==> b.fates[j] != InFlight)
  }

  /** The sentinel that set `processed` has been read. */
  ghost predicate Witnessed(b: Bar) {
    b.processed > 0 ==> exists j :: 0 <= j < b.cursor && j < |b.log| && b.log[j] == Sentinel(b.processed)
  }

  /** Everything below the mark precedes every sentinel numbered from the ticket's own on, and every flush
      that covers the number. */
  predicate InOrder(b: Bar, t: Ticket) {
    && 1 <= t.number <= b.sequence && t.mark <= |b.log|
    && (forall j :: 0 <= j < |b.log| && b.log[j].Sentinel? && t.number <= b.log[j].number ==> t.mark <= j)
    && (b.flusher.Flushing? && t.number <= b.flusher.covered ==> t.mark <= b.flusher.length)
    && ((b.flusher.Reporting? || b.flusher.Confirming?) && t.number <= b.flusher.covered ==> t.mark <= b.settled)
    && (t.number <= b.checked ==> t.mark <= b.confirmed)
  }

  ghost predicate Ordered(b: Bar) {
    forall w :: w in b.tickets ==> InOrder(b, b.tickets[w])
  }

  /** Steps that append to the log, change a record's fate or read one. */
  predicate OnLog(step: Step) { step.LogQuery? || step.WriteSentinel? || step.Lose? || step.Read? }

  predicate OnFlush(step: Step) {
    step.FlushBegin? || step.FlushFail? || step.FlushReturn? || step.Report? || step.Confirm?
  }

  lemma LogKeepsBounded(b: Bar, step: Step, now: nat)
    requires Bounded(b) && Ordered(b) && Enabled(b, step, now) && OnLog(step)
    ensures Bounded(Do(b, step, now))
  {
  }

  lemma FlushKeepsBounded(b: Bar, step: Step, now: nat)
    requires Bounded(b) && Enabled(b, step, now) && OnFlush(step)
    ensures Bounded(Do(b, step, now))
  {
  }

  lemma DoKeepsBounded(b: Bar, step: Step, now: nat)
    requires Bounded(b) && Ordered(b) && Enabled(b, step, now)
    ensures Bounded(Do(b, step, now))
  {
    if OnLog(step) {
      LogKeepsBounded(b, step, now);
    } else if OnFlush(step) {
      FlushKeepsBounded(b, step, now);
    }
  }

  lemma DoKeepsWitness(b: Bar, step: Step, now: nat)
    requires Bounded(b) && Witnessed(b) && Enabled(b, step, now)
    ensures Witnessed(Do(b, step, now))
  {
    var b' := Do(b, step, now);
    if b.processed > 0 {
      var j :| 0 <= j < b.cursor && b.log[j] == Sentinel(b.processed);
      assert b'.log[j] == b.log[j];
    }
    if b'.processed != b.processed { assert b'.log[b.cursor] == Sentinel(b'.processed); }
  }

  lemma LogKeepsOrdered(b: Bar, step: Step, now: nat)
    requires Bounded(b) && Ordered(b) && Enabled(b, step, now) && OnLog(step)
    ensures Ordered(Do(b, step, now))
  {
  }

  lemma FlushKeepsOrdered(b: Bar, step: Step, now: nat)
    requires Bounded(b) && Ordered(b) && Enabled(b, step, now) && OnFlush(step)
    ensures Ordered(Do(b, step, now))
  {
  }

  lemma DoKeepsOrdered(b: Bar, step: Step, now: nat)
    requires Bounded(b) && Ordered(b) && Enabled(b, step, now)
    ensures Ordered(Do(b, step, now))
  {
    if OnLog(step) {
      LogKeepsOrdered(b, step, now);
    } else if OnFlush(step) {
      FlushKeepsOrdered(b, step, now);
    }
  }

  // --- Every loss a flush covered has been reported ---

  predicate ReportedLoss(b: Bar, i: nat)
    requires i < |b.log|
  {
    b.log[i].Query? ==> b.lastReport.Some? && b.log[i].at <= b.lastReport.value
  }

  ghost predicate Reported(b: Bar, bound: nat) {
    forall i :: 0 <= i < bound && i < |b.log| && i < |b.fates| && b.fates[i] == Missing ==> ReportedLoss(b, i)
  }

  ghost predicate Accounted(b: Bar) {
    && Reported(b, b.confirmed)
    && (!b.flusher.Reporting? ==> Reported(b, b.settled))
    && (!b.flusher.Reporting? && b.losses == b.seen ==> Reported(b, |b.log|))
    && (b.lastReport.Some? ==> b.lastReport.value <= b.clock)
  }

  lemma AppendKeepsAccounted(b: Bar, step: Step, now: nat)
    requires Bounded(b) && Accounted(b) && Enabled(b, step, now) && (step.LogQuery? || step.WriteSentinel?)
    ensures Accounted(Do(b, step, now))
  {
  }

  lemma FateKeepsAccounted(b: Bar, step: Step, now: nat)
    requires Bounded(b) && Accounted(b) && Enabled(b, step, now) && (step.Lose? || step.Read?)
    ensures Accounted(Do(b, step, now))
  {
  }

  lemma FlushKeepsAccounted(b: Bar, step: Step, now: nat)
    requires Bounded(b) && Accounted(b) && Enabled(b, step, now) && OnFlush(step)
    ensures Accounted(Do(b, step, now))
  {
  }

  lemma DoKeepsAccounted(b: Bar, step: Step, now: nat)
    requires Bounded(b) && Accounted(b) && Enabled(b, step, now)
    ensures Accounted(Do(b, step, now))
  {
    if step.LogQuery? || step.WriteSentinel? {
      AppendKeepsAccounted(b, step, now);
    } else if step.Lose? || step.Read? {
      FateKeepsAccounted(b, step, now);
    } else if OnFlush(step) {
      FlushKeepsAccounted(b, step, now);
    }
  }

  ghost predicate Inv(b: Bar) {
    Bounded(b) && Witnessed(b) && Ordered(b) && Accounted(b)
  }

  lemma InitInv(b: Bar)
    requires Init(b)
    ensures Inv(b)
  {
  }

  lemma DoKeepsInv(b: Bar, step: Step, now: nat)
    requires Inv(b) && Enabled(b, step, now)
    ensures Inv(Do(b, step, now))
  {
    DoKeepsBounded(b, step, now);
    DoKeepsWitness(b, step, now);
    DoKeepsOrdered(b, step, now);
    DoKeepsAccounted(b, step, now);
  }

  /** When a worker wakes, each record logged before its number was assigned has been handled, or was lost
      and that loss has been reported: a later sentinel read first covers every earlier number. */
  lemma BarrierCovers(b: Bar, w: nat, i: nat)
    requires Inv(b) && Passed(b, w) && i < b.tickets[w].mark
    ensures i < |b.log| == |b.fates|
    ensures b.fates[i] == Handled || (b.fates[i] == Missing && ReportedLoss(b, i))
  {
    assert InOrder(b, b.tickets[w]);
    var j :| 0 <= j < b.cursor && b.log[j] == Sentinel(b.processed);
    assert b.tickets[w].mark <= j;
  }
}
