/** Editing the enrolled policy: the kernel guard, the settings file and the controller's journal change one
    after another, the process may die between any two commands, and a later command recovers.

    Each external command takes its outcome from `fates`: it succeeds, raises or kills the process, before or
    after its effect. A file replacement is atomic. Nobody else changes the guard, and nobody but the controller
    changes the settings while a guard lifetime is open. A journal pool has one peer. */
module PolicyJournal {
  import opened Options
  import opened Failures

  type Path = nat

  /** The maps and links a published guard pins. */
  const PINS := 30

  /** The pinned guard: its enrolled paths and whether it is ready or blocked, or what a removal has left of its
      pin directory. */
  datatype Guard = Absent | Live(paths: set<Path>, ready: bool) | Remnant(pins: nat)

  /** One unpinning later. */
  function Removed(g: Guard): Guard
    requires !g.Absent?
  {
    match g
    case Live(_, _) => Remnant(PINS - 1)
    case Remnant(pins) => if pins == 0 then Absent else Remnant(pins - 1)
  }

  function Removals(g: Guard): nat {
    match g
    case Absent => 0
    case Live(_, _) => PINS + 1
    case Remnant(pins) => pins + 1
  }

  datatype Phase = Loading | Blocked | Preparing | Ready | Degraded | Disabling | Disabled

  datatype Edit = Edit(add: bool, path: Path, policy: set<Path>, generation: nat)

  datatype Journal = Journal(phase: Phase, generation: nat, policy: set<Path>, pinned: bool, pending: Option<Edit>,
                             networkStarted: bool)

  function Edited(policy: set<Path>, add: bool, path: Path): set<Path> {
    if add then policy + {path} else policy - {path}
  }

  /** What the journal reader insists on. */
  predicate WellFormed(j: Journal) {
    && j.generation >= 1
    && (j.pending.Some? ==>
          && j.pending.value.generation == j.generation + 1
          && j.pending.value.policy == Edited(j.policy, j.pending.value.add, j.pending.value.path))
  }

  /** The ordered combinations of an edit: neither place changed, then the kernel, then both. */
  predicate Between(kernel: set<Path>, settings: set<Path>, before: set<Path>, after: set<Path>) {
    || (kernel == before && settings == before)
    || (kernel == after && settings == before)
    || (kernel == after && settings == after)
  }

  predicate Synchronised(guard: Guard, settings: set<Path>, j: Journal) {
    guard.Live? && guard.paths == settings == j.policy && j.pending.None?
  }

  /** An open lifetime with its guard not yet adopted. */
  predicate Unclaimed(guard: Guard, settings: set<Path>, receipt: bool, birth: bool, j: Journal) {
    && j.phase in {Loading, Degraded} && j.pending.None? && settings == j.policy && !j.networkStarted && !receipt
    && (guard.Absent? || (guard == Live(j.policy, false) && birth))
  }

  /** An open lifetime with its guard. */
  predicate Claimed(guard: Guard, settings: set<Path>, receipt: bool, j: Journal) {
    && guard.Live? && (j.networkStarted ==> receipt)
    && if j.pending.None? then guard.paths == settings == j.policy
       else !guard.ready && Between(guard.paths, settings, j.policy, j.pending.value.policy)
  }

  /** A lifetime being closed. */
  predicate Closing(guard: Guard, settings: set<Path>, receipt: bool, j: Journal) {
    && j.pinned && j.pending.None? && settings == j.policy
    && (guard == Live(j.policy, false) || (!guard.Live? && !receipt))
  }

  /** Everything durable agrees with the journal `j`. */
  predicate Consistent(guard: Guard, settings: set<Path>, receipt: bool, birth: bool, j: Journal) {
    && WellFormed(j)
    && if j.phase == Disabled then guard.Absent? && !receipt && j.pending.None? && !j.pinned
       else if j.phase == Disabling then Closing(guard, settings, receipt, j)
       else if j.pinned then Claimed(guard, settings, receipt, j)
       else Unclaimed(guard, settings, receipt, birth, j)
  }

  /** The invariant at every kill point. */
  predicate Intact(guard: Guard, settings: set<Path>, receipt: bool, birth: bool, journal: Option<Journal>) {
    if journal.None? then guard.Absent? && !receipt else Consistent(guard, settings, receipt, birth, journal.value)
  }

  predicate IsOpen(journal: Option<Journal>) { journal.Some? && journal.value.phase !in {Disabling, Disabled} }

  /** Ready, with kernel, settings and journal equal. */
  predicate Serving(guard: Guard, settings: set<Path>, journal: Option<Journal>) {
    && guard.Live? && guard.ready && journal.Some? && journal.value.phase == Ready
    && Synchronised(guard, settings, journal.value)
  }

  /** A lifetime that never had a guard cannot be closed. */
  predicate Closable(guard: Guard, journal: Option<Journal>) {
    journal.None? || journal.value.pinned || journal.value.phase == Disabled || guard.Live?
  }

  predicate NeedsRecovery(settings: set<Path>, j: Journal) {
    settings != j.policy || j.pending.Some? || !j.networkStarted
  }

  datatype Command = RunGuard | Activate | Check | Change(add: bool, path: Path) | Disable
    | Configure(settings: set<Path>)

  class Controller {
    var guard: Guard
    var settings: set<Path>
    var journal: Option<Journal>
    var receipt: bool
    var birth: bool
    var fates: seq<Fate>
    var answers: seq<bool>

    constructor (settings: set<Path>, fates: seq<Fate>, answers: seq<bool>)
      ensures Valid() && this.settings == settings && journal.None? && this.fates == fates && this.answers == answers
    {
      guard, journal, receipt, birth := Absent, None, false, false;
      this.settings, this.fates, this.answers := settings, fates, answers;
    }

    ghost predicate Valid() reads this { Intact(guard, settings, receipt, birth, journal) }

    ghost predicate Fits(j: Journal) reads this { Consistent(guard, settings, receipt, birth, j) }

    /** From here on no command fails. */
    ghost predicate Calm() reads this { forall k :: 0 <= k < |fates| ==> fates[k] == Done }

    // --- Commands ---

    method Next() returns (f: Fate)
      modifies `fates
      ensures old(Calm()) ==> Calm() && f == Done
    {
      if fates == [] { return Done; }
      f := fates[0];
      fates := fates[1..];
    }

    /** A command without a lasting effect on the modelled state: a read, a check, an audit, a probe. */
    method Step() returns (s: Status)
      modifies `fates
      ensures old(Calm()) ==> Calm() && s == Ok
    {
      var f := Next();
      s := StatusOf(f);
    }

    method Ask() returns (yes: bool)
      modifies `answers
    {
      if answers == [] { return false; }
      yes := answers[0];
      answers := answers[1..];
    }

    method Save(j: Journal) returns (s: Status)
      modifies `fates, `journal
      ensures journal == Some(j) || (s != Ok && journal == old(journal))
      ensures old(Calm()) ==> Calm() && s == Ok
    {
      var f := Next();
      if Lands(f) { journal := Some(j); }
      s := StatusOf(f);
    }

    method ReplaceSettings(policy: set<Path>) returns (s: Status)
      modifies `fates, `settings
      ensures settings == policy || (s != Ok && settings == old(settings))
      ensures old(Calm()) ==> Calm() && s == Ok
    {
      var f := Next();
      if Lands(f) { settings := policy; }
      s := StatusOf(f);
    }

    method SetState(ready: bool) returns (s: Status)
      requires guard.Live?
      modifies `fates, `guard
      ensures guard == Live(old(guard).paths, ready) || (s != Ok && guard == old(guard))
      ensures old(Calm()) ==> Calm() && s == Ok
    {
      var f := Next();
      if Lands(f) { guard := guard.(ready := ready); }
      s := StatusOf(f);
    }

    method ChangeKernel(add: bool, path: Path) returns (s: Status)
      requires guard.Live?
      modifies `fates, `guard
      ensures guard == Live(Edited(old(guard).paths, add, path), old(guard).ready) || (s != Ok && guard == old(guard))
      ensures old(Calm()) ==> Calm() && s == Ok
    {
      var f := Next();
      if Lands(f) { guard := guard.(paths := Edited(guard.paths, add, path)); }
      s := StatusOf(f);
    }

    /** Load a blocked guard: its identity is recorded before it is published. */
    method Load(policy: set<Path>) returns (s: Status)
      requires guard.Absent?
      modifies `fates, `guard, `birth
      ensures (guard == Live(policy, false) && birth) || (s != Ok && guard == old(guard))
      ensures old(Calm()) ==> Calm() && s == Ok
    {
      var f := Next();
      if Lands(f) { birth := true; }
      s := StatusOf(f);
      if s != Ok { return; }
      var g := Next();
      if Lands(g) { guard := Live(policy, false); }
      s := StatusOf(g);
    }

    method ForgetBirth() returns (s: Status)
      modifies `fates, `birth
      ensures birth == false || (s != Ok && birth == old(birth))
      ensures old(Calm()) ==> Calm() && s == Ok
    {
      var f := Next();
      if Lands(f) { birth := false; }
      s := StatusOf(f);
    }

    method SetReceipt(present: bool) returns (s: Status)
      modifies `fates, `receipt
      ensures receipt == present || (s != Ok && receipt == old(receipt))
      ensures old(Calm()) ==> Calm() && s == Ok
    {
      var f := Next();
      if Lands(f) { receipt := present; }
      s := StatusOf(f);
    }

    /** The next pin of the directory, or the empty directory itself. */
    method UnpinNext() returns (s: Status)
      requires !guard.Absent?
      modifies `fates, `guard
      ensures guard == Removed(old(guard)) || (s != Ok && guard == old(guard))
      ensures old(Calm()) ==> Calm() && s == Ok
    {
      var f := Next();
      if Lands(f) { guard := Removed(guard); }
      s := StatusOf(f);
    }

    /** Unpin one after the other, then remove the directory; an interrupted removal leaves a remnant. */
    method DiscardGuard() returns (s: Status)
      requires !guard.Absent?
      modifies `fates, `guard
      ensures guard.Absent? || (s != Ok && (guard == old(guard) || guard.Remnant?))
      ensures old(Calm()) ==> Calm() && s == Ok
    {
      s := Ok;
      :- Step();
      while !guard.Absent?
        invariant s == Ok && (guard == old(guard) || !guard.Live?)
        invariant old(Calm()) ==> Calm()
        decreases Removals(guard)
      {
        s := UnpinNext();
        if s != Ok { return; }
      }
    }

    // --- Reading back the guard ---

    /** Read the guard and insist that it is this lifetime's, with the committed policy if asked. */
    method Observed(j: Journal, policy: bool) returns (s: Status)
      modifies `fates
      ensures s == Ok ==> guard.Live? && j.pinned && (policy ==> guard.paths == j.policy)
      ensures old(Calm()) && guard.Live? && j.pinned && (policy ==> guard.paths == j.policy) ==> s == Ok
      ensures old(Calm()) ==> Calm() && s != Dead
    {
      s := Step();
      if s == Ok && (!guard.Live? || !j.pinned || (policy && guard.paths != j.policy)) { s := Raised; }
    }

    method Block(j: Journal, policy: bool) returns (s: Status)
      modifies `fates, `guard
      ensures guard == old(guard) || (old(guard).Live? && guard == Live(old(guard).paths, false))
      ensures s == Ok ==> guard.Live? && !guard.ready && j.pinned && (policy ==> guard.paths == j.policy)
      ensures old(Calm()) && old(guard).Live? && j.pinned && (policy ==> old(guard).paths == j.policy) ==> s == Ok
      ensures old(Calm()) ==> Calm() && s != Dead
    {
      s := Ok;
      :- Observed(j, policy);
      :- SetState(false);
      :- Observed(j, policy);
      if guard.ready { s := Raised; } else { s := Ok; }
    }

    // --- The edit transaction ---

    /** The first half: block the guard and give it the new policy. */
    method RecoverKernel(j: Journal) returns (s: Status)
      requires Valid() && journal == Some(j) && j.pending.Some?
      modifies `guard, `fates
      ensures Valid()
      ensures s == Ok ==> guard == Live(j.pending.value.policy, false)
      ensures old(Calm()) ==> Calm() && s == Ok
    {
      var e := j.pending.value;
      if settings != j.policy && settings != e.policy { return Raised; }
      :- Block(j, false);
      :- Observed(j, false);
      if guard.paths != j.policy && guard.paths != e.policy { return Raised; }
      if guard.paths != e.policy { :- ChangeKernel(e.add, e.path); }
      :- Observed(j, false);
      if guard.paths != e.policy { s := Raised; } else { s := Ok; }
    }

    /** Carry a pending edit through the kernel, the settings and the journal. */
    method RecoverEdit(before: Journal) returns (s: Status, j: Journal)
      requires Valid() && journal == Some(before) && before.pending.Some?
      modifies `guard, `settings, `journal, `fates
      ensures Valid() && journal.Some?
      ensures s != Dead ==> Fits(j) && j.phase in {before.phase, Blocked}
      ensures s == Ok ==> journal == Some(j) && guard == Live(before.pending.value.policy, false)
      ensures s == Ok ==> Synchronised(guard, settings, j)
      ensures s == Ok ==> j == before.(phase := Blocked, policy := before.pending.value.policy,
                generation := before.pending.value.generation, pending := None)
      ensures old(Calm()) ==> Calm() && s == Ok
    {
      j := before;
      var e := before.pending.value;
      :- RecoverKernel(j);
      if e.add { :- Step(); }
      if settings != e.policy { :- ReplaceSettings(e.policy); }
      j := j.(policy := e.policy, generation := e.generation, pending := None, phase := Blocked);
      s := Save(j);
    }

    // --- The guard lifetime ---

    /** Adopt the published guard whose identity the load recorded. */
    method ClaimBirth(before: Journal) returns (s: Status, j: Journal)
      requires Valid() && journal == Some(before) && !before.pinned && before.phase !in {Disabling, Disabled}
      modifies `journal, `birth, `fates
      ensures Valid() && journal.Some?
      ensures s == Ok ==> journal == Some(j) && j == before.(pinned := true) && guard == Live(j.policy, false)
      ensures old(Calm()) && old(guard).Live? ==> Calm() && s == Ok
    {
      j := before;
      :- Step();
      if !guard.Live? || !birth || guard.ready || guard.paths != j.policy { return Raised, j; }
      :- Step();
      j := j.(pinned := true);
      :- Step();
      :- Save(j);
      s := ForgetBirth();
    }

    /** Start a lifetime from the settings, unless live state is left from another. */
    method OpenLifetime(previous: Option<Journal>) returns (s: Status, j: Journal)
      requires Valid() && journal == previous && (previous.Some? ==> previous.value.phase == Disabled)
      modifies `journal, `fates
      ensures Valid()
      ensures s == Ok ==> journal == Some(j) && j == Journal(Loading, 1, settings, false, None, false)
      ensures old(Calm()) ==> Calm() && s == Ok
    {
      j := Journal(Loading, 1, settings, false, None, false);
      if !guard.Absent? || receipt { return Raised, j; }
      :- Step();
      s := Save(j);
    }

    /** Load the guard of an open lifetime if it has none, and adopt it. */
    method LoadAndClaim(before: Journal) returns (s: Status, j: Journal)
      requires Valid() && journal == Some(before) && !before.pinned && before.phase !in {Disabling, Disabled}
      modifies `guard, `journal, `birth, `fates
      ensures Valid() && journal.Some?
      ensures s == Ok ==> journal == Some(j) && j == before.(pinned := true) && guard == Live(j.policy, false)
      ensures old(Calm()) ==> Calm() && s == Ok
    {
      j := before;
      if guard.Absent? {
        :- ForgetBirth();
        :- Load(j.policy);
      }
      s, j := ClaimBirth(j);
    }

    /** Finish a pending edit and record the blocked guard. */
    method Finish(before: Journal) returns (s: Status, j: Journal)
      requires Valid() && journal == Some(before) && before.pinned && before.phase !in {Disabling, Disabled}
      modifies `guard, `settings, `journal, `fates
      ensures Valid() && journal.Some?
      ensures s == Ok ==>
                journal == Some(j) && j.phase == Blocked && j.pinned && Synchronised(guard, settings, j) && !guard.ready
      ensures s == Ok && before.pending.None? ==> j == before.(phase := Blocked)
      ensures s == Ok && before.pending.Some? ==>
                j.policy == before.pending.value.policy && j.generation == before.pending.value.generation
      ensures old(Calm()) ==> Calm() && s == Ok
    {
      j := before;
      if j.pending.Some? {
        s, j := RecoverEdit(j);
        if s != Ok { return; }
      }
      :- Block(j, true);
      :- Step();
      j := j.(phase := Blocked);
      s := Save(j);
    }

    /** Open a lifetime if none is open, give it its guard and finish a pending edit. */
    method Bring() returns (s: Status, j: Journal)
      requires Valid() && (journal.Some? ==> journal.value.phase != Disabling)
      modifies `guard, `settings, `journal, `birth, `fates
      ensures Valid()
      ensures s == Ok ==>
                journal == Some(j) && j.phase == Blocked && j.pinned && Synchronised(guard, settings, j) && !guard.ready
      ensures s == Ok && old(journal).Some? && old(journal).value.pending.Some? ==>
                j.policy == old(journal).value.pending.value.policy &&
                  j.generation == old(journal).value.pending.value.generation
      ensures old(Calm()) ==> Calm() && s == Ok
    {
      if journal.None? || journal.value.phase == Disabled {
        s, j := OpenLifetime(journal);
        if s != Ok { return; }
      } else {
        j := journal.value;
      }
      if j.pending.None? && settings != j.policy { return Raised, j; }
      if !j.pinned {
        s, j := LoadAndClaim(j);
        if s != Ok { return; }
      }
      s, j := Finish(j);
    }

    /** Bring the guard up blocked, finishing whatever was interrupted. A disabled controller stays so unless
        activated. */
    method GuardUp(activate: bool) returns (s: Status, j: Journal)
      requires Valid()
      modifies `guard, `settings, `journal, `birth, `fates
      ensures Valid()
      ensures s == Ok ==> journal == Some(j)
      ensures s == Ok && j.phase != Disabled ==>
                j.phase == Blocked && j.pinned && Synchronised(guard, settings, j) && !guard.ready
      ensures s == Ok && j.phase == Disabled ==> !activate && old(journal) == Some(j)
      ensures s == Ok && old(journal).Some? && old(journal).value.pending.Some? ==>
                j.policy == old(journal).value.pending.value.policy &&
                  j.generation == old(journal).value.pending.value.generation
      ensures old(Calm()) && (old(journal).None? || old(journal).value.phase != Disabling) ==> Calm() && s == Ok
    {
      j := Journal(Loading, 1, settings, false, None, false);
      :- Step();
      if journal.Some? {
        j := journal.value;
        if j.phase == Disabling { return Raised, j; }
        if j.phase == Disabled && !activate { return Ok, j; }
        if j.pinned { :- Block(j, false); }
      }
      :- Step();
      s, j := Bring();
    }

    /** Block if possible and record the degraded phase. */
    method Degrade(before: Journal) returns (s: Status, j: Journal)
      requires Valid() && Fits(before) && before.phase !in {Disabling, Disabled}
      modifies `guard, `journal, `fates
      ensures Valid()
      ensures s == Ok ==> journal == Some(j) && j == before.(phase := Degraded)
      ensures old(Calm()) ==> s == Ok && !(guard.Live? && guard.ready)
    {
      j := before;
      s := Block(j, j.pending.None?);
      if s == Dead { return; }
      j := j.(phase := Degraded);
      s := Save(j);
    }

    /** The answer to a failure: degrade, and let the failure stand. */
    method GiveUp(j: Journal) returns (s: Status)
      requires Valid() && Fits(j) && j.phase !in {Disabling, Disabled}
      modifies `guard, `journal, `fates
      ensures Valid() && s != Ok
    {
      s := Ok;
      :- Step();
      var d, _ := Degrade(j);
      s := if d == Dead then Dead else Raised;
    }

    /** Gather the evidence for readiness, blocking the guard while the network is repaired. */
    method Prove(j: Journal) returns (s: Status, wasReady: bool)
      modifies `guard, `fates, `answers
      ensures guard == old(guard) || (old(guard).Live? && guard == Live(old(guard).paths, false))
      ensures s == Ok ==> guard.Live? && j.pinned && guard.paths == j.policy && (wasReady ==> guard.ready)
      ensures old(Calm()) && old(guard).Live? && j.pinned && old(guard).paths == j.policy ==> Calm() && s == Ok
    {
      wasReady := false;
      :- Observed(j, true);
      s := Step();
      if s == Dead { return; }
      wasReady := guard.ready && j.phase == Ready;
      if !wasReady { :- Block(j, true); }
      :- Step();
      var repair := Ask();
      if repair {
        :- Block(j, true);
        wasReady := false;
        :- Step();
      }
      :- Step();
      s := Observed(j, true);
    }

    /** Make a synchronised guard ready once the network and the probe allow it. */
    method MakeReady(before: Journal) returns (s: Status, j: Journal)
      requires Valid() && journal == Some(before) && before.pending.None? && before.phase !in {Disabling, Disabled}
      modifies `guard, `journal, `fates, `answers
      ensures Valid() && journal.Some?
      ensures s != Dead ==> Fits(j) && j in {before, before.(phase := Ready)}
      ensures s == Ok ==>
                journal == Some(j) && j.phase == Ready && guard.Live? && guard.ready && Synchronised(guard, settings, j)
      ensures old(Calm()) && before.pinned ==> s == Ok
    {
      j := before;
      var wasReady :- Prove(j);
      if !wasReady {
        :- SetState(true);
        :- Observed(j, true);
      }
      if !guard.ready { return Raised, j; }
      j := j.(phase := Ready);
      :- Step();
      s := Save(j);
    }

    // --- Commands of the program ---

    /** Release an interrupted network acquisition, and an unjournaled empty receipt. */
    method Rewind(before: Journal) returns (s: Status, j: Journal)
      requires Valid() && journal == Some(before) && before.pinned && before.pending.None? && before.phase == Blocked
      modifies `journal, `receipt, `fates, `answers
      ensures Valid() && journal.Some?
      ensures s != Dead ==>
                Fits(j) && j.phase == Blocked && j.pinned && j.pending.None? && (s == Ok ==> journal == Some(j))
      ensures s == Ok ==> j.networkStarted == receipt
      ensures old(Calm()) ==> Calm() && s == Ok
    {
      j := before;
      if j.networkStarted && !receipt { return Raised, j; }
      if j.networkStarted {
        var incomplete := Ask();
        if incomplete {
          :- Step();
          j := j.(networkStarted := false);
          :- Save(j);
          :- SetReceipt(false);
        }
      }
      if !j.networkStarted && receipt {
        :- Step();
        :- SetReceipt(false);
      }
      s := Ok;
    }

    /** The network part of an activation, up to readiness. */
    method Connect(before: Journal) returns (s: Status, j: Journal)
      requires Valid() && journal == Some(before) && before.pinned && before.pending.None? && before.phase == Blocked
      modifies `guard, `journal, `receipt, `fates, `answers
      ensures Valid() && journal.Some?
      ensures s != Dead ==> Fits(j) && j.phase !in {Disabling, Disabled}
      ensures s == Ok ==>
                journal == Some(j) && j.phase == Ready && guard.Live? && guard.ready && Synchronised(guard, settings, j)
      ensures old(Calm()) ==> s == Ok
    {
      s, j := Rewind(before);
      if s != Ok { return; }
      j := j.(phase := Preparing);
      :- Save(j);
      if !receipt {
        :- Step();
        :- SetReceipt(true);
        j := j.(networkStarted := true);
        :- Save(j);
        :- Step();
      }
      s, j := MakeReady(j);
    }

    method Activate() returns (s: Status)
      requires Valid()
      modifies this
      ensures Valid()
      ensures s == Ok ==> Serving(guard, settings, journal)
      ensures old(Calm()) && (old(journal).None? || old(journal).value.phase != Disabling) ==> s == Ok
    {
      var j :- GuardUp(true);
      s, j := Connect(j);
      if s == Raised {
        if !receipt { j := j.(networkStarted := false); }
        s := GiveUp(j);
      }
    }

    /** The periodic health check. It leaves a closed lifetime alone; an open one ends ready and synchronised, or
        degraded with nothing else of its journal changed, and degraded whenever it needs guarded recovery. */
    method Check() returns (s: Status)
      requires Valid()
      modifies `guard, `journal, `fates, `answers
      ensures Valid()
      ensures !IsOpen(old(journal)) ==> guard == old(guard) && journal == old(journal)
      ensures IsOpen(old(journal)) && s == Ok ==>
                journal == Some(old(journal).value.(phase := Degraded)) || Serving(guard, settings, journal)
      ensures IsOpen(old(journal)) && s == Ok && NeedsRecovery(settings, old(journal).value) ==>
                journal.value.phase == Degraded
      ensures old(Calm()) ==> s == Ok
      ensures old(Calm()) && IsOpen(old(journal)) ==>
                if NeedsRecovery(settings, old(journal).value) then !(guard.Live? && guard.ready)
                else Serving(guard, settings, journal)
    {
      s := Ok;
      :- Step();
      if journal.None? || journal.value.phase in {Disabling, Disabled} { return Ok; }
      var j := journal.value;
      s := Step();
      if s == Ok {
        if settings != j.policy || j.pending.Some? || !j.networkStarted { s := Raised; } else { s, j := MakeReady(j); }
      }
      if s == Raised {
        :- Step();
        s, j := Degrade(j);
      }
    }

    /** Carry out the journaled edit and restore readiness. */
    method Apply(before: Journal, wasReady: bool) returns (s: Status, j: Journal)
      requires Valid() && journal == Some(before) && before.phase == Blocked && before.pending.Some?
      modifies `guard, `settings, `journal, `fates, `answers
      ensures Valid()
      ensures s != Dead ==> Fits(j) && j.phase !in {Disabling, Disabled}
      ensures s == Ok ==> journal == Some(j) && Synchronised(guard, settings, j)
      ensures s == Ok ==> j.policy == before.pending.value.policy && j.generation == before.pending.value.generation
      ensures old(Calm()) ==> s == Ok
    {
      j := before;
      :- Step();
      s, j := RecoverEdit(j);
      if s == Ok && wasReady { s, j := MakeReady(j); }
    }

    /** Make the edit of a blocked guard: durable intent first, then everywhere, then ready again. */
    method Commit(before: Journal, add: bool, path: Path, wasReady: bool) returns (s: Status)
      requires Valid() && journal == Some(before) && before.pinned && before.phase == Blocked && !guard.ready
      requires Synchronised(guard, settings, before)
      modifies `guard, `settings, `journal, `fates, `answers
      ensures Valid()
      ensures s == Ok ==> journal.Some? && Synchronised(guard, settings, journal.value)
      ensures s == Ok ==> settings == Edited(before.policy, add, path)
      ensures s == Ok ==> journal.value.generation == before.generation + 1
      ensures old(Calm()) ==> s == Ok
    {
      var j := before.(pending := Some(Edit(add, path, Edited(before.policy, add, path), before.generation + 1)));
      :- Save(j);
      s, j := Apply(j, wasReady);
      if s == Raised {
        s := GiveUp(j);
      }
    }

    /** Edit the policy of a blocked, synchronised guard unless the edit is already in force. */
    method Amend(before: Journal, add: bool, path: Path, wasReady: bool) returns (s: Status)
      requires Valid() && journal == Some(before) && before.pinned && before.phase == Blocked && !guard.ready
      requires Synchronised(guard, settings, before)
      modifies `guard, `settings, `journal, `fates, `answers
      ensures Valid()
      ensures s == Ok ==> journal.Some? && Synchronised(guard, settings, journal.value)
      ensures s == Ok ==> settings == Edited(before.policy, add, path)
      ensures old(Calm()) ==> s == Ok
    {
      s := Ok;
      if add == (path in before.policy) {
        if wasReady { var j; s, j := MakeReady(before); }
        return;
      }
      :- Step();
      s := Commit(before, add, path, wasReady);
    }

    /** Enrol or withdraw one path. */
    method Change(add: bool, path: Path) returns (s: Status)
      requires Valid()
      modifies `guard, `settings, `journal, `birth, `fates, `answers
      ensures Valid()
      ensures s == Ok ==> journal.Some? && Synchronised(guard, settings, journal.value) && (path in settings <==> add)
      ensures old(Calm()) && old(journal).Some? && old(journal).value.phase !in {Disabling, Disabled} ==> s == Ok
    {
      s := Ok;
      :- Step();
      var wasReady := journal.Some? && journal.value.phase == Ready;
      if wasReady && journal.value.pending.None? && add == (path in journal.value.policy) {
        s := KeepReady(journal.value);
        return;
      }
      var j :- GuardUp(false);
      if j.phase == Disabled { return Raised; }
      s := Amend(j, add, path, wasReady);
    }

    /** A change that is already in force only confirms readiness. */
    method KeepReady(before: Journal) returns (s: Status)
      requires Valid() && journal == Some(before) && before.pending.None? && before.phase == Ready
      modifies `guard, `journal, `fates, `answers
      ensures Valid()
      ensures s == Ok ==>
                journal.Some? && journal.value.policy == before.policy && Synchronised(guard, settings, journal.value)
      ensures old(Calm()) ==> s == Ok
    {
      var j := before;
      s := Step();
      if s == Ok {
        if settings != j.policy { s := Raised; } else { s, j := MakeReady(j); }
      }
      if s == Raised {
        s := Block(j, false);
        if s == Dead { return; }
        s := GiveUp(j);
      }
    }

    /** Release the network, then the guard, then close the lifetime. */
    method Close(before: Journal) returns (s: Status)
      requires Valid() && journal == Some(before) && before.phase == Disabling
      modifies `guard, `journal, `receipt, `fates
      ensures Valid()
      ensures s == Ok ==> guard.Absent? && !receipt
      ensures s == Ok ==> journal == Some(before.(phase := Disabled, pinned := false, pending := None))
      ensures guard != old(guard) ==> !receipt && !guard.Live?
      ensures journal != old(journal) ==> guard.Absent? && !receipt
      ensures old(Calm()) ==> s == Ok
    {
      if receipt {
        :- Step();
        :- SetReceipt(false);
      }
      if !guard.Absent? { :- DiscardGuard(); }
      s := Save(before.(phase := Disabled, pinned := false, pending := None));
    }

    /** Settle what is pending and adopt an unclaimed guard before closing. */
    method Tidy(before: Journal) returns (s: Status, j: Journal)
      requires Valid() && journal == Some(before) && before.phase != Disabled
      modifies `guard, `settings, `journal, `birth, `fates
      ensures Valid() && journal.Some? && receipt == old(receipt)
      ensures s == Ok ==> journal == Some(j) && j.pending.None? && (j.pinned <==> before.pinned || !old(guard).Absent?)
      ensures s == Ok ==>
                j.phase in {before.phase, Blocked} && (before.phase == Disabling ==> j == before && guard == old(guard))
      ensures s == Ok ==> (guard.Absent? <==> old(guard).Absent?)
      ensures old(Calm()) ==> Calm() && s == Ok
    {
      j := before;
      :- Step();
      if j.pending.Some? {
        s, j := RecoverEdit(j);
        if s != Ok { return; }
      }
      if !j.pinned && !guard.Absent? {
        s, j := ClaimBirth(j);
      } else {
        s := Ok;
      }
    }

    /** Block the guard and journal that the lifetime is closing. */
    method StartClosing(j: Journal) returns (s: Status)
      requires Valid() && journal == Some(j) && j.pending.None? && j.phase != Disabled
      modifies `guard, `journal, `fates
      ensures Valid()
      ensures s == Ok ==> journal == Some(j.(phase := Disabling))
      ensures old(Calm()) && j.pinned ==> Calm() && s == Ok
      ensures !j.pinned ==> s != Ok
    {
      var removing := j.phase == Disabling && !receipt;
      if guard.Absent? {
        if !removing { return Raised; }
      } else if !removing {
        :- Block(j, true);
      }
      :- Step();
      s := Save(j.(phase := Disabling));
    }

    method Disable() returns (s: Status)
      requires Valid()
      modifies `guard, `settings, `journal, `birth, `receipt, `fates
      ensures Valid()
      ensures s == Ok ==> guard.Absent? && !receipt && (journal.None? || journal.value.phase == Disabled)
      ensures old(Calm()) ==> (s == Ok <==> Closable(old(guard), old(journal)))
    {
      s := Ok;
      :- Step();
      if journal.None? { if !guard.Absent? || receipt { return Raised; } else { return Ok; } }
      if journal.value.phase == Disabled { return Ok; }
      var j :- Tidy(journal.value);
      :- StartClosing(j);
      s := Close(j.(phase := Disabling));
    }

    /** Every run: commands in any order, each under any failures and killed anywhere. */
    method Run(commands: seq<Command>)
      requires Valid()
      modifies this
      ensures Valid()
      ensures guard.Live? && guard.ready ==> journal.Some? && Synchronised(guard, settings, journal.value)
    {
      for k := 0 to |commands|
        invariant Valid()
      {
        var s;
        match commands[k]
        case RunGuard => { var j; s, j := GuardUp(false); }
        case Activate => s := Activate();
        case Check => s := Check();
        case Change(add, path) => s := Change(add, path);
        case Disable => s := Disable();
        case Configure(wanted) => if journal.None? || journal.value.phase == Disabled { settings := wanted; }
      }
    }

    /** Recovery: whatever killed an edit, the next undisturbed guard command completes it everywhere. */
    method Recover() returns (s: Status)
      requires Valid() && Calm() && journal.Some? && journal.value.pending.Some?
      modifies this
      ensures Valid() && s == Ok
      ensures var e := old(journal).value.pending.value;
              guard == Live(e.policy, false) && settings == e.policy && journal.Some? &&
              journal.value.policy == e.policy && journal.value.pending.None? &&
                journal.value.generation == e.generation
    {
      var j;
      s, j := GuardUp(false);
    }
  }
}
