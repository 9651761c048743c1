/** A run of the attribution system that shows which events its safety results cannot cover. */
module OrderingGaps {
  import opened Options
  import opened QueryNames
  import opened Attribution
  import opened OrderingBarrier
  import TraceBarrier

  ghost predicate Reachable(s: Sys, reuse: nat) { exists run :: Run(run, reuse) && run[|run| - 1] == s }

  lemma Go(s: Sys, step: Step, now: nat, reuse: nat)
    requires Reachable(s, reuse) && Enabled(s, step, now, reuse)
    ensures Reachable(Do(s, step, now, reuse), reuse)
  {
    var run :| Run(run, reuse) && run[|run| - 1] == s;
    var longer := run + [Do(s, step, now, reuse)];
    assert Next(s, Do(s, step, now, reuse), reuse);
    assert Run(longer, reuse);
  }

  /** Everything logged has been read, no loss is unreported, and worker 0 has a ticket but no sentinel yet. */
  predicate AtBarrier(b: TraceBarrier.Bar) {
    && b.clock == 0 && b.cursor == |b.log| == |b.fates| && b.flusher == TraceBarrier.Idle && b.seen == b.losses
    && 0 in b.tickets && !b.tickets[0].written && b.tickets[0].number == b.sequence
  }

  /** The trace behind that barrier. */
  function PastBarrier(b: TraceBarrier.Bar): TraceBarrier.Bar
    requires AtBarrier(b)
  {
    b.(log := b.log + [TraceBarrier.Sentinel(b.sequence)], fates := b.fates + [TraceBarrier.Handled],
       cursor := b.cursor + 1, processed := Max(b.processed, b.sequence),
       settled := Max(b.settled, |b.log| + 1), confirmed := Max(b.settled, |b.log| + 1),
       checked := Max(b.checked, b.sequence), tickets := b.tickets[0 := b.tickets[0].(written := true)])
  }

  /** Worker 0 writes its sentinel, the consumer reads it, and a flush finds nothing lost. */
  lemma PassBarrier(s: Sys, reuse: nat)
    requires Reachable(s, reuse) && AtBarrier(s.bar)
    ensures Reachable(s.(bar := PastBarrier(s.bar)), reuse)
  {
    var b := s.bar;
    var s1 := Written(s, reuse);
    Go(s1, Trace(TraceBarrier.FlushBegin), 0, reuse);
    var s2 := Do(s1, Trace(TraceBarrier.FlushBegin), 0, reuse);
    Go(s2, Trace(TraceBarrier.FlushReturn), 0, reuse);
    var s3 := Do(s2, Trace(TraceBarrier.FlushReturn), 0, reuse);
    Go(s3, Trace(TraceBarrier.Confirm), 0, reuse);
    assert Do(s3, Trace(TraceBarrier.Confirm), 0, reuse) == s.(bar := PastBarrier(b));
  }

  lemma Written(s: Sys, reuse: nat) returns (r: Sys)
    requires Reachable(s, reuse) && AtBarrier(s.bar)
    ensures Reachable(r, reuse)
    ensures r == s.(bar := s.bar.(log := s.bar.log + [TraceBarrier.Sentinel(s.bar.sequence)],
                                  fates := s.bar.fates + [TraceBarrier.Handled], cursor := s.bar.cursor + 1,
                                  processed := Max(s.bar.processed, s.bar.sequence),
                                  tickets := s.bar.tickets[0 := s.bar.tickets[0].(written := true)]))
  {
    Go(s, Trace(TraceBarrier.WriteSentinel(0)), 0, reuse);
    var s1 := Do(s, Trace(TraceBarrier.WriteSentinel(0)), 0, reuse);
    Go(s1, Trace(TraceBarrier.Read), 0, reuse);
    r := Do(s1, Trace(TraceBarrier.Read), 0, reuse);
    assert r.bar.fates == s.bar.fates + [TraceBarrier.Handled];
  }

  const QUIET := TraceBarrier.Bar(0, [], [], 0, 0, 0, TraceBarrier.Idle, 0, 0, None, 0, 0, 0, map[])

  // --- The table ---

  /** One entry, from one unselected program's event, decided or not. */
  function Table(key: Key, decision: Decision): Store {
    EMPTY.(hints := map[key := BLANK.(generation := 1, direct := true, decision := decision, expires := LIFETIME)],
           nextExpiry := SCAN_INTERVAL, generations := 1)
  }

  lemma EventFillsTable(q: Question, reuse: nat)
    requires |q.name| <= MAX_NAME
    ensures !Refused(EMPTY, q, 0) && AddResolved(EMPTY, q, Unselected, 0, reuse) == Table(MakeKey(q), Pending)
  {
  }

  lemma TableAnswers(key: Key, reuse: nat)
    ensures Take(Table(key, Pending), key, false, 0, 0, reuse) == Verdict(Table(key, Pending), None, false)
    ensures Take(Table(key, Pending), key, true, 0, 0, reuse) == Verdict(Table(key, Direct), Some(ToDirect), false)
    ensures !DirectAnswerUnsafe(Table(key, Direct), key, 0)
  {
    forall d: Decision ensures Put(Table(key, Pending), key, View(Table(key, d), key)) == Table(key, d) {
    }
  }

  // --- The run ---

  /** A state of the run: the first `read` of the two events have been read. */
  function Quiet(log: seq<TraceBarrier.What>, read: nat, store: Store, outcomes: map<nat, Outcome>): Sys
    requires |log| <= 2
  {
    Sys(QUIET.(log := log, fates := seq(|log|, k => if k < read then TraceBarrier.Handled else TraceBarrier.InFlight),
               cursor := read), store, outcomes, map[], {})
  }

  lemma Log(log: seq<TraceBarrier.What>, what: TraceBarrier.What, reuse: nat)
    requires |log| < 2 && what.Query? && what.at == 0 && Reachable(Quiet(log, 0, EMPTY, map[]), reuse)
    ensures Reachable(Quiet(log + [what], 0, EMPTY, map[]), reuse)
  {
    var s := Quiet(log, 0, EMPTY, map[]);
    var step := Trace(TraceBarrier.LogQuery(what.question, what.whole, what.chosen));
    Go(s, step, 0, reuse);
    assert Do(s, step, 0, reuse) == Quiet(log + [what], 0, EMPTY, map[]);
  }

  lemma BothLogged(event: TraceBarrier.What, other: TraceBarrier.What, reuse: nat)
    requires event.Query? && other.Query? && event.at == other.at == 0
    ensures Reachable(Quiet([event, other], 0, EMPTY, map[]), reuse)
  {
    assert Quiet([], 0, EMPTY, map[]).bar == QUIET;
    assert Run([Quiet([], 0, EMPTY, map[])], reuse);
    Log([], event, reuse);
    assert [] + [event] == [event];
    Log([event], other, reuse);
    assert [event] + [other] == [event, other];
  }

  /** An event of a selected program is dropped, one of another program for the key is noted. */
  predicate Pair(event: TraceBarrier.What, other: TraceBarrier.What, key: Key) {
    && event.Query? && event.chosen && !Legible(event) && event.at == 0 && MakeKey(event.question) == key
    && Legible(other) && !other.chosen && other.at == 0 && MakeKey(other.question) == key
  }

  function Noticed(event: TraceBarrier.What, other: TraceBarrier.What, key: Key): Sys {
    Quiet([event, other], 2, Table(key, Pending), map[0 := Dropped(0), 1 := Applied(key, 0, 1, Unselected)])
  }

  function Half(event: TraceBarrier.What, other: TraceBarrier.What): Sys {
    Quiet([event, other], 1, EMPTY, map[0 := Dropped(0)])
  }

  lemma FirstIsDropped(event: TraceBarrier.What, other: TraceBarrier.What, reuse: nat)
    requires event.Query? && !Legible(event)
    ensures var s := Quiet([event, other], 0, EMPTY, map[]);
            Enabled(s, Drop, 0, reuse) && Do(s, Drop, 0, reuse) == Half(event, other)
  {
    var s := Quiet([event, other], 0, EMPTY, map[]);
    assert Do(s, Drop, 0, reuse).bar.fates == Half(event, other).bar.fates;
  }

  lemma SecondIsNoted(event: TraceBarrier.What, other: TraceBarrier.What, key: Key, reuse: nat)
    requires Legible(other) && !other.chosen && MakeKey(other.question) == key
    ensures var s := Half(event, other); var step := ReadQuery(Unselected);
            Enabled(s, step, 0, reuse) && Do(s, step, 0, reuse) == Noticed(event, other, key)
  {
    EventFillsTable(other.question, reuse);
    var s := Half(event, other);
    assert Do(s, ReadQuery(Unselected), 0, reuse).bar.fates == Noticed(event, other, key).bar.fates;
  }

  lemma NoticedIsReachable(event: TraceBarrier.What, other: TraceBarrier.What, key: Key, reuse: nat)
    requires Pair(event, other, key)
    ensures Reachable(Noticed(event, other, key), reuse)
  {
    BothLogged(event, other, reuse);
    FirstIsDropped(event, other, reuse);
    Go(Quiet([event, other], 0, EMPTY, map[]), Drop, 0, reuse);
    SecondIsNoted(event, other, key, reuse);
    Go(Half(event, other), ReadQuery(Unselected), 0, reuse);
  }

  /** Worker 0 waits behind its first barrier. */
  function Asking(event: TraceBarrier.What, other: TraceBarrier.What, key: Key): Sys {
    var s := Noticed(event, other, key);
    s.(bar := s.bar.(sequence := 1, tickets := map[0 := TraceBarrier.Ticket(1, 2, false)]),
       workers := map[0 := Waiting(key, None)])
  }

  lemma AskingIsReachable(event: TraceBarrier.What, other: TraceBarrier.What, key: Key, reuse: nat)
    requires Pair(event, other, key)
    ensures Reachable(Asking(event, other, key), reuse)
  {
    NoticedIsReachable(event, other, key, reuse);
    TableAnswers(key, reuse);
    var s := Noticed(event, other, key);
    Go(s, Arrive(0, key, 0), 0, reuse);
    assert Do(s, Arrive(0, key, 0), 0, reuse) == Asking(event, other, key);
  }

  /** Behind the barrier, it decides. */
  function Deciding(event: TraceBarrier.What, other: TraceBarrier.What, key: Key): Sys {
    var s := Asking(event, other, key);
    s.(bar := PastBarrier(s.bar))
  }

  lemma DecidingIsReachable(event: TraceBarrier.What, other: TraceBarrier.What, key: Key, reuse: nat)
    requires Pair(event, other, key)
    ensures var s := Deciding(event, other, key);
            && Reachable(s, reuse) && Enabled(s, DecideRoute(0, 0), 0, reuse)
            && Do(s, DecideRoute(0, 0), 0, reuse) == Decided(event, other, key)
  {
    AskingIsReachable(event, other, key, reuse);
    PassBarrier(Asking(event, other, key), reuse);
    TableAnswers(key, reuse);
  }

  function Decided(event: TraceBarrier.What, other: TraceBarrier.What, key: Key): Sys {
    var s := Deciding(event, other, key);
    s.(store := Table(key, Direct), bar := s.bar.(tickets := map[]), workers := map[0 := Routed(key, ToDirect, 1)])
  }

  /** It has a direct answer and waits behind a second barrier. */
  function Vetting(event: TraceBarrier.What, other: TraceBarrier.What, key: Key): Sys {
    var s := Decided(event, other, key);
    s.(bar := s.bar.(sequence := 2, tickets := map[0 := TraceBarrier.Ticket(2, 3, false)]),
       workers := map[0 := Waiting(key, Some(1))])
  }

  lemma DirectIsVetted(event: TraceBarrier.What, other: TraceBarrier.What, key: Key, reuse: nat)
    ensures var s := Decided(event, other, key);
            Enabled(s, Vet(0), 0, reuse) && Do(s, Vet(0), 0, reuse) == Vetting(event, other, key)
  {
  }

  lemma VettingIsReachable(event: TraceBarrier.What, other: TraceBarrier.What, key: Key, reuse: nat)
    requires Pair(event, other, key)
    ensures Reachable(Vetting(event, other, key), reuse)
  {
    DecidingIsReachable(event, other, key, reuse);
    Go(Deciding(event, other, key), DecideRoute(0, 0), 0, reuse);
    DirectIsVetted(event, other, key, reuse);
    Go(Decided(event, other, key), Vet(0), 0, reuse);
  }

  // --- What the run shows ---

  /** An unselected program asks for the same name, written legibly. */
  function Retold(event: TraceBarrier.What): TraceBarrier.What
    requires event.Query?
  {
    event.(question := Question(Spelling(MakeKey(event.question).name), event.question.recordType),
           whole := true, chosen := false)
  }

  lemma OverlookedPairs(event: TraceBarrier.What)
    requires Overlooked(event) && event.chosen && event.at == 0
    ensures Pair(event, Retold(event), MakeKey(event.question))
  {
    SpellingNormalises(event.question.name);
  }

  /** The condition of the safety results is exact: for every overlooked event there is a run in which a worker,
      behind a barrier that covers it, decides for the direct route although no tunnel exchange has ended. */
  lemma OverlookedEventIsMissed(event: TraceBarrier.What, reuse: nat) returns (s: Sys)
    requires Overlooked(event) && event.chosen && event.at == 0
    ensures Reachable(s, reuse) && Enabled(s, DecideRoute(0, 0), 0, reuse)
    ensures Holds(Do(s, DecideRoute(0, 0), 0, reuse), 0, ToDirect)
    ensures 0 < s.bar.tickets[0].mark && 0 < |s.bar.log| && s.bar.log[0] == event
    ensures Concerns(event, s.workers[0].key, 0) && !ClaimedAndEnded(s, 0, s.workers[0].key)
  {
    OverlookedPairs(event);
    DecidingIsReachable(event, Retold(event), MakeKey(event.question), reuse);
    s := Deciding(event, Retold(event), MakeKey(event.question));
  }

  /** The same for the answer: behind its own barrier it is delivered. */
  lemma OverlookedEventIsDelivered(event: TraceBarrier.What, reuse: nat) returns (s: Sys)
    requires Overlooked(event) && event.chosen && event.at == 0
    ensures Reachable(s, reuse) && Enabled(s, JudgeAnswer(0), 0, reuse)
    ensures var s' := Do(s, JudgeAnswer(0), 0, reuse); 0 in s'.workers && s'.workers[0].Delivered?
    ensures 0 < s.bar.tickets[0].mark && 0 < |s.bar.log| && s.bar.log[0] == event
    ensures Concerns(event, s.workers[0].key, 0) && !ClaimedAndEnded(s, 0, s.workers[0].key)
  {
    OverlookedPairs(event);
    var key := MakeKey(event.question);
    VettingIsReachable(event, Retold(event), key, reuse);
    TableAnswers(key, reuse);
    var b := Vetting(event, Retold(event), key);
    PassBarrier(b, reuse);
    s := b.(bar := PastBarrier(b.bar));
  }

  /** Such events exist: any name of 253 characters in normal form, written with its final dot. */
  lemma FinalDotIsOverlooked(name: string, recordType: nat)
    requires |name| == MAX_NAME && Normalised(name) == name && !Blank(name[MAX_NAME - 1])
    ensures Overlooked(TraceBarrier.Query(Question(name + ".", recordType), true, true, 0))
  {
    NormalIsLean(name);
    var t := name + ".";
    assert Trim(t) == t;
    assert Lowered(t) == t;
    assert t[..|t| - 1] == name;
  }
}
