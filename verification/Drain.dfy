/** Settling a guard: the proof that no task still runs inside a traced call it entered before the completion
    programs attached.

    A history is the sequence of all tasks' scheduler states. A sample reads, in this order, a task's switch
    count, its on-CPU flag, its stack frame by frame, the flag and the count again, while every task keeps
    running. The drain trusts a sample only if the flag was clear both times, the count did not change and the
    outermost frame is a real stack bottom.

    Assumed: a task runs (and changes its stack) only while it is on CPU; the scheduler counts a switch before
    it clears the flag; a new task starts with a fresh stack; only the outermost frame of a stack lies in a
    bottom range; an iterator pass returns every task that exists throughout it, and a pass filtered to one
    thread returns that thread if it exists throughout. */
module Drain {
  import opened Options

  /** Thread identifier and start time. */
  datatype Id = Id(tid: nat, start: nat)

  /** A return address; `early` says the call was entered before the completion programs attached. */
  datatype Frame = Frame(address: nat, early: bool)

  /** The stack lists the innermost frame first. `counted` says the switch-out under way has been counted. */
  datatype Task = Task(onCpu: bool, counted: bool, switches: nat, stack: seq<Frame>, exited: bool)

  type Moment = map<Id, Task>

  datatype Range = Range(start: nat, end: nat)

  predicate Contains(r: Range, address: nat) { r.start <= address < r.end }

  datatype Symbols = Symbols(traced: seq<Range>, bottoms: seq<Range>)

  predicate InTraced(symbols: Symbols, address: nat) {
    exists i :: 0 <= i < |symbols.traced| && Contains(symbols.traced[i], address)
  }

  predicate InBottom(symbols: Symbols, address: nat) {
    exists i :: 0 <= i < |symbols.bottoms| && Contains(symbols.bottoms[i], address)
  }

  // --- Scheduling ---

  predicate Calls(stack: seq<Frame>, stack': seq<Frame>, attached: bool) {
    || (stack != [] && stack' == stack[1..])
    || (stack' != [] && stack'[1..] == stack && (attached ==> !stack'[0].early))
  }

  predicate Runs(t: Task, t': Task, attached: bool) {
    || t' == t
    || (!t.onCpu && !t.exited && t' == t.(onCpu := true, counted := false))
    || (t.onCpu && !t.counted && t' == t.(stack := t'.stack) && Calls(t.stack, t'.stack, attached))
    || (t.onCpu && !t.counted && t' == t.(counted := true, switches := t.switches + 1))
    || (t.onCpu && t.counted && t' == t.(onCpu := false))
    || (t.onCpu && t' == t.(exited := true))
  }

  predicate NoEarlyFrames(t: Task) { forall k :: 0 <= k < |t.stack| ==> !t.stack[k].early }

  predicate Steps(m: Moment, m': Moment, attached: bool) {
    && (forall id :: id in m && !m[id].exited ==> id in m')
    && (forall id :: id in m && id in m' ==> Runs(m[id], m'[id], attached))
    && (attached ==> forall id :: id in m' && id !in m ==> NoEarlyFrames(m'[id]))
  }

  predicate WellBottomed(m: Moment, symbols: Symbols) {
    forall id, k :: id in m && 0 <= k < |m[id].stack| && InBottom(symbols, m[id].stack[k].address) ==>
      k == |m[id].stack| - 1
  }

  /** A history whose completion programs are attached from index `attach` on; an identifier is never reused. */
  ghost predicate History(h: seq<Moment>, attach: nat, symbols: Symbols) {
    && (forall i :: 0 <= i < |h| ==> WellBottomed(h[i], symbols))
    && (forall i :: 0 <= i < |h| - 1 ==> Steps(h[i], h[i + 1], attach <= i))
    && (forall i, j, k, id :: 0 <= i <= j <= k < |h| && id in h[i] && id in h[k] ==> id in h[j])
  }

  /** Running inside a traced call entered before attachment. */
  predicate InsideEarly(t: Task, symbols: Symbols) {
    !t.exited && exists k :: 0 <= k < |t.stack| && t.stack[k].early && InTraced(symbols, t.stack[k].address)
  }

  // --- Samples ---

  datatype Sample = Sample(id: Id, exited: bool, self: bool, onCpu: bool, walkError: bool, before: nat, after: nat,
                           frames: seq<nat>)

  /** When each part of a sample was read. */
  datatype Times = Times(first: nat, flag: nat, walk: seq<nat>, flag2: nat, last: nat)

  predicate InTime(times: Times, begin: nat, end: int) {
    && begin <= times.first <= times.flag <= times.flag2 <= times.last <= end
    && forall k :: 0 <= k < |times.walk| ==> times.flag <= times.walk[k] <= times.flag2
  }

  /** The sample is what those reads of the history give: the walk yields frames from the innermost on and may
      stop early. The scanning task itself is not in a traced call. */
  ghost predicate Reads(h: seq<Moment>, symbols: Symbols, p: Sample, times: Times) {
    && InTime(times, 0, |h| - 1) && |times.walk| == |p.frames|
    && (forall i :: times.first <= i <= times.last ==> p.id in h[i])
    && (p.exited ==> h[times.first][p.id].exited)
    && (p.self ==> !InsideEarly(h[times.first][p.id], symbols))
    && (!p.exited && !p.self ==>
         && p.before == h[times.first][p.id].switches && p.after == h[times.last][p.id].switches
         && (!p.onCpu ==> !h[times.flag][p.id].onCpu && !h[times.flag2][p.id].onCpu)
         && (forall k :: 0 <= k < |p.frames| && !p.walkError ==>
               k < |h[times.walk[k]][p.id].stack| && p.frames[k] == h[times.walk[k]][p.id].stack[k].address))
  }

  ghost predicate Taken(h: seq<Moment>, symbols: Symbols, p: Sample, begin: nat, end: nat) {
    exists times :: InTime(times, begin, end) && Reads(h, symbols, p, times)
  }

  datatype Walk = Clear | Unknown | Inside

  /** What a sample proves. */
  function Classify(p: Sample, cap: nat, symbols: Symbols): Walk {
    if p.exited || p.self then Clear
    else if p.onCpu || p.walkError || p.before != p.after || p.frames == [] || |p.frames| >= cap then Unknown
    else if exists k :: 0 <= k < |p.frames| && InTraced(symbols, p.frames[k]) then Inside
    else if InBottom(symbols, p.frames[|p.frames| - 1]) then Clear
    else Unknown
  }

  // --- A trusted walk is an atomic snapshot ---

  /** Since index `from`, the task has not run; or it is running; or a switch has been counted. */
  predicate Undisturbed(t0: Task, t: Task) {
    (t.stack == t0.stack && !t.onCpu) || (t.onCpu && !t.counted) || t0.switches < t.switches
  }

  lemma {:induction false} Disturbance(h: seq<Moment>, attach: nat, symbols: Symbols, id: Id, from: nat, last: nat)
    requires History(h, attach, symbols) && from <= last < |h|
    requires forall i :: from <= i <= last ==> id in h[i]
    requires !h[from][id].onCpu
    ensures h[from][id].switches <= h[last][id].switches && Undisturbed(h[from][id], h[last][id])
    ensures h[last][id].switches == h[from][id].switches && !h[last][id].onCpu ==>
              h[last][id].stack == h[from][id].stack
    decreases last
  {
    if from < last {
      Disturbance(h, attach, symbols, id, from, last - 1);
      assert Steps(h[last - 1], h[last], attach <= last - 1);
      assert Runs(h[last - 1][id], h[last][id], attach <= last - 1);
    }
  }

  /** A task on CPU before its switch is counted leaves the CPU only after counting it. */
  lemma {:induction false} LeavingCounts(h: seq<Moment>, attach: nat, symbols: Symbols, id: Id, from: nat, last: nat)
    requires History(h, attach, symbols) && from <= last < |h|
    requires forall i :: from <= i <= last ==> id in h[i]
    requires h[from][id].onCpu && !h[from][id].counted
    ensures h[from][id].switches < h[last][id].switches ||
            (h[last][id].onCpu && !h[last][id].counted && h[from][id].switches == h[last][id].switches)
    decreases last
  {
    if from < last {
      LeavingCounts(h, attach, symbols, id, from, last - 1);
      assert Steps(h[last - 1], h[last], attach <= last - 1);
      assert Runs(h[last - 1][id], h[last][id], attach <= last - 1);
    }
  }

  lemma {:induction false} SwitchesGrow(h: seq<Moment>, attach: nat, symbols: Symbols, id: Id, from: nat, last: nat)
    requires History(h, attach, symbols) && from <= last < |h|
    requires forall i :: from <= i <= last ==> id in h[i]
    ensures h[from][id].switches <= h[last][id].switches
    decreases last
  {
    if from < last {
      SwitchesGrow(h, attach, symbols, id, from, last - 1);
      assert Steps(h[last - 1], h[last], attach <= last - 1);
    }
  }

  /** Off CPU at both reads with an unchanged switch count, the stack did not change between the flag reads. */
  lemma StackStood(h: seq<Moment>, attach: nat, symbols: Symbols, p: Sample, times: Times, at: nat)
    requires History(h, attach, symbols) && Reads(h, symbols, p, times)
    requires !p.exited && !p.self && !p.onCpu && p.before == p.after && times.flag <= at <= times.flag2
    ensures h[at][p.id].stack == h[times.flag][p.id].stack
  {
    var id := p.id;
    Disturbance(h, attach, symbols, id, times.flag, at);
    SwitchesGrow(h, attach, symbols, id, times.first, times.flag);
    SwitchesGrow(h, attach, symbols, id, at, times.flag2);
    SwitchesGrow(h, attach, symbols, id, times.flag2, times.last);
    if h[at][id].onCpu && !h[at][id].counted { LeavingCounts(h, attach, symbols, id, at, times.flag2); }
  }

  /** The frames of a clear sample are those of the whole stack at its first flag read. */
  lemma FramesAreStack(h: seq<Moment>, attach: nat, symbols: Symbols, p: Sample, times: Times, cap: nat)
    requires History(h, attach, symbols) && Reads(h, symbols, p, times)
    requires Classify(p, cap, symbols) == Clear && !p.exited && !p.self
    ensures |p.frames| == |h[times.flag][p.id].stack|
    ensures forall k :: 0 <= k < |p.frames| ==> p.frames[k] == h[times.flag][p.id].stack[k].address
  {
    var stack := h[times.flag][p.id].stack;
    forall k | 0 <= k < |p.frames| ensures k < |stack| && p.frames[k] == stack[k].address {
      StackStood(h, attach, symbols, p, times, times.walk[k]);
    }
    assert InBottom(symbols, stack[|p.frames| - 1].address);
    assert WellBottomed(h[times.flag], symbols);
  }

  /** A sample classified clear shows its task outside every early traced call at some instant of the sample. */
  lemma ClearIsProof(h: seq<Moment>, attach: nat, symbols: Symbols, p: Sample, times: Times, cap: nat) returns (at: nat)
    requires History(h, attach, symbols) && Reads(h, symbols, p, times)
    requires Classify(p, cap, symbols) == Clear
    ensures times.first <= at <= times.last && !InsideEarly(h[at][p.id], symbols)
  {
    if p.exited || p.self { return times.first; }
    at := times.flag;
    FramesAreStack(h, attach, symbols, p, times, cap);
    var stack := h[at][p.id].stack;
    forall k | 0 <= k < |stack| ensures !InTraced(symbols, stack[k].address) {
      assert p.frames[k] == stack[k].address;
    }
  }

  // --- After attachment, no task enters an early call ---

  lemma RunStaysOutside(t: Task, t': Task, symbols: Symbols)
    requires Runs(t, t', true) && !InsideEarly(t, symbols)
    ensures !InsideEarly(t', symbols)
  {
    if t'.stack != t.stack && t.stack != [] && t'.stack == t.stack[1..] {
      assert forall k :: 0 <= k < |t'.stack| ==> t'.stack[k] == t.stack[k + 1];
    } else if t'.stack != t.stack {
      assert forall k :: 0 < k < |t'.stack| ==> t'.stack[k] == t'.stack[1..][k - 1];
    }
  }

  lemma {:induction false} StaysOutside(h: seq<Moment>, attach: nat, symbols: Symbols, id: Id, from: nat, last: nat)
    requires History(h, attach, symbols) && attach <= from <= last < |h| && id in h[from] && id in h[last]
    requires !InsideEarly(h[from][id], symbols)
    ensures !InsideEarly(h[last][id], symbols)
    decreases last
  {
    if from < last {
      assert id in h[last - 1];
      StaysOutside(h, attach, symbols, id, from, last - 1);
      assert Steps(h[last - 1], h[last], true);
      RunStaysOutside(h[last - 1][id], h[last][id], symbols);
    }
  }

  /** A task that appeared after attachment is outside. */
  lemma {:induction false} NewcomerIsOutside(h: seq<Moment>, attach: nat, symbols: Symbols, id: Id, from: nat,
                                             last: nat)
    requires History(h, attach, symbols) && attach <= from < last < |h| && id !in h[from] && id in h[last]
    ensures !InsideEarly(h[last][id], symbols)
    decreases last
  {
    assert Steps(h[last - 1], h[last], true);
    if id in h[last - 1] {
      NewcomerIsOutside(h, attach, symbols, id, from, last - 1);
      RunStaysOutside(h[last - 1][id], h[last][id], symbols);
    }
  }

  // --- The drain ---

  /** What the scans of one round return: a pass over every task, and a pass for each thread. A pass the
      deadline interrupts returns nothing. */
  datatype Round = Round(all: Option<seq<Sample>>, each: map<Id, seq<Sample>>)

  datatype Outcome = Settled | Unproven | Deadline

  const FILTER_LIMIT := 64

  predicate IsClear(p: Sample, cap: nat, symbols: Symbols) { Classify(p, cap, symbols) == Clear }

  predicate Listed(samples: seq<Sample>, id: Id) { exists k :: 0 <= k < |samples| && samples[k].id == id }

  /** Tasks with a sample that is not clear. */
  function Unclear(samples: seq<Sample>, cap: nat, symbols: Symbols): set<Id> {
    set k | 0 <= k < |samples| && !IsClear(samples[k], cap, symbols) :: samples[k].id
  }

  /** Whether the last sample of `id` is not clear; a task without a sample has exited. */
  predicate Remains(samples: seq<Sample>, id: Id, cap: nat, symbols: Symbols) {
    samples != [] &&
    var last := samples[|samples| - 1];
    if last.id == id then !IsClear(last, cap, symbols) else Remains(samples[..|samples| - 1], id, cap, symbols)
  }

  predicate Filters(filtered: bool, pending: set<Id>) { filtered && |pending| <= FILTER_LIMIT }

  /** The tasks a round leaves pending. */
  function Left(pending: set<Id>, r: Round, filtered: bool, cap: nat, symbols: Symbols): Option<set<Id>> {
    if Filters(filtered, pending) then
      if forall id :: id in pending ==> id in r.each then
        Some(set id | id in pending && Remains(r.each[id], id, cap, symbols))
      else None
    else if r.all.None? then None
    else Some(set id | id in pending && Remains(r.all.value, id, cap, symbols))
  }

  function Rescan(pending: set<Id>, rounds: seq<Round>, filtered: bool, cap: nat, symbols: Symbols): Outcome
    decreases |rounds|
  {
    if pending == {} then Settled
    else if rounds == [] then Deadline
    else
      var left := Left(pending, rounds[0], filtered, cap, symbols);
      if left.None? then Deadline else Rescan(left.value, rounds[1..], filtered, cap, symbols)
  }

  method FirstPending(samples: seq<Sample>, cap: nat, symbols: Symbols) returns (pending: set<Id>)
    ensures pending == Unclear(samples, cap, symbols)
  {
    pending := {};
    for k := 0 to |samples|
      invariant pending == set j | 0 <= j < k && !IsClear(samples[j], cap, symbols) :: samples[j].id
    {
      if !IsClear(samples[k], cap, symbols) { pending := pending + {samples[k].id}; }
    }
  }

  method LastVerdict(samples: seq<Sample>, id: Id, cap: nat, symbols: Symbols) returns (remains: bool)
    ensures remains == Remains(samples, id, cap, symbols)
  {
    remains := false;
    for k := 0 to |samples|
      invariant remains == Remains(samples[..k], id, cap, symbols)
    {
      assert samples[..k + 1][..k] == samples[..k];
      if samples[k].id == id { remains := !IsClear(samples[k], cap, symbols); }
    }
    assert samples[..|samples|] == samples;
  }

  method FilteredRound(pending: set<Id>, each: map<Id, seq<Sample>>, cap: nat, symbols: Symbols)
    returns (left: Option<set<Id>>)
    ensures left.Some? <==> forall id :: id in pending ==> id in each
    ensures left.Some? ==> left.value == set id | id in pending && Remains(each[id], id, cap, symbols)
  {
    var rest, kept := pending, {};
    while rest != {}
      invariant rest <= pending && kept <= pending - rest
      invariant forall id :: id in pending - rest ==>
                  id in each && (id in kept <==> Remains(each[id], id, cap, symbols))
    {
      var id :| id in rest;
      if id !in each { return None; }
      var remains := LastVerdict(each[id], id, cap, symbols);
      if remains { kept := kept + {id}; }
      rest := rest - {id};
    }
    left := Some(kept);
  }

  method FullRound(pending: set<Id>, samples: seq<Sample>, cap: nat, symbols: Symbols) returns (left: set<Id>)
    ensures left == set id | id in pending && Remains(samples, id, cap, symbols)
  {
    var seen: map<Id, bool> := map[];
    for k := 0 to |samples|
      invariant forall id :: Remains(samples[..k], id, cap, symbols) <==> id in seen && !seen[id]
    {
      assert samples[..k + 1][..k] == samples[..k];
      seen := seen[samples[k].id := IsClear(samples[k], cap, symbols)];
    }
    assert samples[..|samples|] == samples;
    left := set id | id in pending && id in seen && !seen[id];
  }

  /** The drain: the first pass collects the tasks not shown clear, and each later round drops those that exited
      or are shown clear, until none is left or the deadline passes. */
  method DrainTasks(first: Option<seq<Sample>>, filterWorks: bool, rounds: seq<Round>, cap: nat, symbols: Symbols)
    returns (outcome: Outcome)
    ensures outcome == Unproven <==> |symbols.traced| != 2 || symbols.bottoms == []
    ensures outcome != Unproven && first.None? ==> outcome == Deadline
    ensures outcome != Unproven && first.Some? ==>
              outcome == Rescan(Unclear(first.value, cap, symbols), rounds, filterWorks, cap, symbols)
  {
    if |symbols.traced| != 2 || symbols.bottoms == [] { return Unproven; }
    if first.None? { return Deadline; }
    var pending := FirstPending(first.value, cap, symbols);
    var k := 0;
    while pending != {}
      invariant 0 <= k <= |rounds|
      invariant Rescan(pending, rounds[k..], filterWorks, cap, symbols) ==
                  Rescan(Unclear(first.value, cap, symbols), rounds, filterWorks, cap, symbols)
      decreases |rounds| - k
    {
      if k == |rounds| { return Deadline; }
      var round := rounds[k];
      assert rounds[k..][0] == round && rounds[k..][1..] == rounds[k + 1..];
      var left;
      if filterWorks && |pending| <= FILTER_LIMIT {
        left := FilteredRound(pending, round.each, cap, symbols);
      } else if round.all.Some? {
        var some := FullRound(pending, round.all.value, cap, symbols);
        left := Some(some);
      } else {
        left := None;
      }
      ghost var expected := Left(pending, round, filterWorks, cap, symbols);
      assert left.Some? == expected.Some? && (left.Some? ==> left.value == expected.value);
      if left.None? { return Deadline; }
      pending := left.value;
      k := k + 1;
    }
    outcome := Settled;
  }

  // --- Settled means drained ---

  /** A pass that does not leave `id` pending either misses it or shows it clear. */
  lemma {:induction false} NotRemaining(samples: seq<Sample>, id: Id, cap: nat, symbols: Symbols)
    requires !Remains(samples, id, cap, symbols) && Listed(samples, id)
    ensures exists k :: 0 <= k < |samples| && samples[k].id == id && IsClear(samples[k], cap, symbols)
    decreases |samples|
  {
    var n := |samples| - 1;
    if samples[n].id != id {
      var k :| 0 <= k < |samples| && samples[k].id == id;
      assert samples[..n][k].id == id;
      NotRemaining(samples[..n], id, cap, symbols);
      var j :| 0 <= j < n && samples[..n][j].id == id && IsClear(samples[..n][j], cap, symbols);
      assert samples[j].id == id;
    }
  }

  /** The pass of round `j` that decides about `id` in the given mode. */
  predicate Drops(r: Round, id: Id, full: bool, cap: nat, symbols: Symbols) {
    if full then r.all.Some? && !Remains(r.all.value, id, cap, symbols)
    else id in r.each && !Remains(r.each[id], id, cap, symbols)
  }

  predicate EverDrops(rounds: seq<Round>, id: Id, cap: nat, symbols: Symbols) {
    exists j, full :: 0 <= j < |rounds| && Drops(rounds[j], id, full, cap, symbols)
  }

  /** If the drain settles, some round dropped each task it had pending. */
  lemma {:induction false} SettledDropsAll(pending: set<Id>, rounds: seq<Round>, filtered: bool, cap: nat,
                                           symbols: Symbols, id: Id)
    requires Rescan(pending, rounds, filtered, cap, symbols) == Settled && id in pending
    ensures EverDrops(rounds, id, cap, symbols)
    decreases |rounds|
  {
    var left := Left(pending, rounds[0], filtered, cap, symbols).value;
    if id in left {
      SettledDropsAll(left, rounds[1..], filtered, cap, symbols, id);
      var j, full :| 0 <= j < |rounds[1..]| && Drops(rounds[1..][j], id, full, cap, symbols);
      assert Drops(rounds[j + 1], id, full, cap, symbols);
    } else {
      assert Drops(rounds[0], id, !Filters(filtered, pending), cap, symbols);
    }
  }

  /** Conversely, with no pass interrupted, the drain settles once every pending task was dropped in both modes. */
  lemma {:induction false} DroppingAllSettles(pending: set<Id>, rounds: seq<Round>, filtered: bool, cap: nat,
                                              symbols: Symbols)
    requires forall j :: 0 <= j < |rounds| ==>
               rounds[j].all.Some? && (forall id :: id in pending ==> id in rounds[j].each)
    requires forall id :: id in pending ==>
               exists j :: 0 <= j < |rounds| && Drops(rounds[j], id, true, cap, symbols) &&
                 Drops(rounds[j], id, false, cap, symbols)
    ensures Rescan(pending, rounds, filtered, cap, symbols) == Settled
    decreases |rounds|
  {
    if pending != {} {
      assert rounds[0].all.Some?;
      var left := Left(pending, rounds[0], filtered, cap, symbols).value;
      forall id | id in left
        ensures exists j :: 0 <= j < |rounds[1..]| && Drops(rounds[1..][j], id, true, cap, symbols) &&
                  Drops(rounds[1..][j], id, false, cap, symbols)
      {
        var j :| 0 <= j < |rounds| && Drops(rounds[j], id, true, cap, symbols) &&
          Drops(rounds[j], id, false, cap, symbols);
        assert rounds[1..][j - 1] == rounds[j];
      }
      DroppingAllSettles(left, rounds[1..], filtered, cap, symbols);
    }
  }

  /** A pass between two instants: each sample was read between them, and no task alive throughout is missed. */
  ghost predicate Pass(h: seq<Moment>, symbols: Symbols, samples: seq<Sample>, begin: nat, end: nat) {
    && begin <= end < |h|
    && (forall k :: 0 <= k < |samples| ==> Taken(h, symbols, samples[k], begin, end))
    && (forall id :: (forall i :: begin <= i <= end ==> id in h[i]) ==> Listed(samples, id))
  }

  /** The same for a pass filtered to one thread. */
  ghost predicate ThreadPass(h: seq<Moment>, symbols: Symbols, samples: seq<Sample>, id: Id, begin: nat, end: nat) {
    && begin <= end < |h|
    && (forall k :: 0 <= k < |samples| ==> Taken(h, symbols, samples[k], begin, end))
    && ((forall i :: begin <= i <= end ==> id in h[i]) ==> Listed(samples, id))
  }

  ghost predicate RoundTaken(h: seq<Moment>, symbols: Symbols, r: Round, begin: nat, end: nat) {
    && (r.all.Some? ==> Pass(h, symbols, r.all.value, begin, end))
    && (forall id :: id in r.each ==> ThreadPass(h, symbols, r.each[id], id, begin, end))
  }

  /** A task that outlives a pass which did not leave it pending is outside early calls from then on. */
  lemma PassFrees(h: seq<Moment>, attach: nat, symbols: Symbols, samples: seq<Sample>, cap: nat, id: Id, begin: nat,
                  end: nat, now: nat)
    requires History(h, attach, symbols) && attach <= begin <= end <= now < |h| && id in h[begin] && id in h[now]
    requires ThreadPass(h, symbols, samples, id, begin, end) && !Remains(samples, id, cap, symbols)
    ensures !InsideEarly(h[now][id], symbols)
  {
    NotRemaining(samples, id, cap, symbols);
    var k :| 0 <= k < |samples| && samples[k].id == id && IsClear(samples[k], cap, symbols);
    assert Taken(h, symbols, samples[k], begin, end);
    var times :| InTime(times, begin, end) && Reads(h, symbols, samples[k], times);
    var at := ClearIsProof(h, attach, symbols, samples[k], times, cap);
    StaysOutside(h, attach, symbols, id, at, now);
  }

  lemma {:induction false} ClearPassNotRemaining(samples: seq<Sample>, id: Id, cap: nat, symbols: Symbols)
    requires id !in Unclear(samples, cap, symbols)
    ensures !Remains(samples, id, cap, symbols)
    decreases |samples|
  {
    if samples != [] {
      var n := |samples| - 1;
      assert samples[n].id == id ==> IsClear(samples[n], cap, symbols);
      assert id !in Unclear(samples[..n], cap, symbols) by {
        assert forall k :: 0 <= k < n ==> samples[..n][k] == samples[k];
      }
      ClearPassNotRemaining(samples[..n], id, cap, symbols);
    }
  }

  lemma FirstPassFrees(h: seq<Moment>, attach: nat, symbols: Symbols, samples: seq<Sample>, cap: nat, id: Id,
                       begin: nat, end: nat, now: nat)
    requires History(h, attach, symbols) && attach <= begin <= end <= now < |h| && id in h[begin] && id in h[now]
    requires Pass(h, symbols, samples, begin, end) && id !in Unclear(samples, cap, symbols)
    ensures !InsideEarly(h[now][id], symbols)
  {
    ClearPassNotRemaining(samples, id, cap, symbols);
    PassFrees(h, attach, symbols, samples, cap, id, begin, end, now);
  }

  lemma RoundFrees(h: seq<Moment>, attach: nat, symbols: Symbols, r: Round, full: bool, cap: nat, id: Id, begin: nat,
                   end: nat, now: nat)
    requires History(h, attach, symbols) && attach <= begin <= end <= now < |h| && id in h[begin] && id in h[now]
    requires RoundTaken(h, symbols, r, begin, end) && Drops(r, id, full, cap, symbols)
    ensures !InsideEarly(h[now][id], symbols)
  {
    PassFrees(h, attach, symbols, if full then r.all.value else r.each[id], cap, id, begin, end, now);
  }

  /** The first pass starts at `begin`, and every round after it lies between `begin` and `end`. */
  ghost predicate DrainTaken(h: seq<Moment>, symbols: Symbols, first: seq<Sample>, rounds: seq<Round>, begin: nat,
                             end: nat) {
    && begin <= end < |h|
    && (exists e :: begin <= e <= end && Pass(h, symbols, first, begin, e))
    && (forall j :: 0 <= j < |rounds| ==>
          exists b, e :: begin <= b <= e <= end && RoundTaken(h, symbols, rounds[j], b, e))
  }

  /** Safety of settling, over every history: if the drain settles, no task is ever again inside a traced call
      that it entered before the completion programs attached. */
  lemma SettledMeansDrained(h: seq<Moment>, attach: nat, symbols: Symbols, cap: nat, first: seq<Sample>, filtered: bool,
                            rounds: seq<Round>, begin: nat, end: nat, id: Id, now: nat)
    requires History(h, attach, symbols) && attach <= begin && DrainTaken(h, symbols, first, rounds, begin, end)
    requires Rescan(Unclear(first, cap, symbols), rounds, filtered, cap, symbols) == Settled
    requires end <= now < |h| && id in h[now]
    ensures !InsideEarly(h[now][id], symbols)
  {
    if id !in h[begin] {
      NewcomerIsOutside(h, attach, symbols, id, begin, now);
    } else if id in Unclear(first, cap, symbols) {
      SettledDropsAll(Unclear(first, cap, symbols), rounds, filtered, cap, symbols, id);
      var j, full :| 0 <= j < |rounds| && Drops(rounds[j], id, full, cap, symbols);
      var b, e :| begin <= b <= e <= end && RoundTaken(h, symbols, rounds[j], b, e);
      assert id in h[b];
      RoundFrees(h, attach, symbols, rounds[j], full, cap, id, b, e, now);
    } else {
      var e :| begin <= e <= end && Pass(h, symbols, first, begin, e);
      FirstPassFrees(h, attach, symbols, first, cap, id, begin, e, now);
    }
  }
}
