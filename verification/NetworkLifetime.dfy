/** The owned network objects and their receipt: acquired in one order, released in the reverse order, repaired
    and switched to another peer in between, with the process killed at any command.

    The objects are an unreachable fallback route, a rule, an nft table, a WireGuard interface and a preferred
    route. Deleting the interface also drops the preferred route. Nobody else changes these objects. A receipt is
    replaced atomically. A temporary private configuration file is not part of this model. */
module NetworkLifetime {
  import opened Options
  import opened Failures

  type Peer = nat

  datatype Config = Partial | Full(peer: Peer)

  datatype Link = Link(index: nat, config: Config, localnet: bool)

  datatype Live = Live(fallback: bool, rule: bool, table: bool, link: Option<Link>, preferred: bool)

  /** The live objects form a prefix of the acquisition order. */
  predicate Prefix(l: Live) {
    (l.preferred ==> l.link.Some?) && (l.link.Some? ==> l.table) && (l.table ==> l.rule) && (l.rule ==> l.fallback)
  }

  predicate Anchored(l: Live) { l.fallback && l.rule && l.table }

  predicate SameAnchors(l: Live, l': Live) { l'.fallback == l.fallback && l'.rule == l.rule && l'.table == l.table }

  // --- The receipt ---

  /** `fenced` marks an identity as gone before its replacement is born. */
  datatype LinkRecord = LinkRecord(index: nat, provisional: bool, peer: Peer, fenced: bool)

  datatype SysctlRecord = SysctlRecord(index: nat, fenced: bool)

  /** What is recorded of each object; the table's record names the peer it is bound to. */
  datatype Receipt = Receipt(fallback: bool, rule: bool, table: Option<Peer>, zone: bool, link: Option<LinkRecord>,
                             sysctl: Option<SysctlRecord>, preferred: Option<bool>)

  const NOTHING := Receipt(false, false, None, false, None, None, None)

  predicate Whole(r: Receipt) {
    r.fallback && r.rule && r.table.Some? && r.zone && r.link.Some? && r.sysctl.Some? && r.preferred.Some?
  }

  // --- Health ---

  datatype Look = Matching | Missing | Changed | Unrecorded

  function LookAtTable(l: Live, r: Receipt, profile: Peer): Look {
    if r.table.None? then Unrecorded
    else if !l.table then Missing
    else if r.table.value == profile then Matching else Changed
  }

  function LookAtLink(l: Live, r: Receipt): Look {
    if r.link.None? then Unrecorded
    else if l.link.None? then Missing
    else if r.link.value.fenced || r.link.value.index != l.link.value.index then Changed
    else if r.link.value.provisional || l.link.value.config == Full(r.link.value.peer) then Matching
    else Changed
  }

  function LookAtSysctl(l: Live, r: Receipt): Look {
    if r.sysctl.None? then Unrecorded
    else if l.link.None? || r.sysctl.value.fenced then Missing
    else if r.sysctl.value.index == l.link.value.index && l.link.value.localnet then Matching
    else Changed
  }

  /** A route in the owned table or a rule at the owned priority without a record. */
  predicate Unexplained(l: Live, r: Receipt) {
    (l.fallback && !r.fallback) || (l.preferred && r.preferred.None?) || (l.rule && !r.rule)
  }

  /** A changed object, or an unexplained one. */
  predicate Suspicious(l: Live, r: Receipt, profile: Peer) {
    || LookAtTable(l, r, profile) == Changed || LookAtLink(l, r) == Changed || LookAtSysctl(l, r) == Changed
    || Unexplained(l, r)
  }

  predicate AnchorsMatch(l: Live, r: Receipt, profile: Peer) {
    Anchored(l) && r.fallback && r.rule && r.zone && LookAtTable(l, r, profile) == Matching
  }

  /** Nothing suspicious, and the recorded interface stands on matching anchors. */
  predicate Reusable(l: Live, r: Receipt, profile: Peer) {
    !Suspicious(l, r, profile) && AnchorsMatch(l, r, profile) && LookAtLink(l, r) == Matching
  }

  predicate AnyMissing(l: Live, r: Receipt) {
    || (r.fallback && !l.fallback) || (r.rule && !l.rule) || (r.table.Some? && !l.table) || (r.zone && !l.table)
    || LookAtLink(l, r) == Missing || LookAtSysctl(l, r) == Missing || (r.preferred.Some? && !l.preferred)
  }

  predicate Fenced(r: Receipt) {
    (r.link.Some? && r.link.value.fenced) || (r.sysctl.Some? && r.sysctl.value.fenced) || r.preferred == Some(true)
  }

  /** The interface and its setting are both fenced. */
  predicate FencedTunnel(r: Receipt) {
    r.link.Some? && r.link.value.fenced && r.sysctl.Some? && r.sysctl.value.fenced
  }

  /** The recorded interface is the finished one of this peer. */
  predicate Configured(r: Receipt, profile: Peer) {
    r.link.Some? && !r.link.value.provisional && r.link.value.peer == profile
  }

  predicate Healthy(l: Live, r: Receipt, profile: Peer) {
    Whole(r) && Configured(r, profile) && !AnyMissing(l, r) && !Suspicious(l, r, profile) && !Fenced(r)
  }

  /** Every live table and interface has a record. */
  predicate Recorded(l: Live, receipt: Option<Receipt>) {
    && (l.table ==> receipt.Some? && receipt.value.table.Some?)
    && (l.link.Some? ==> receipt.Some? && receipt.value.link.Some?)
  }

  /** No record outlives what it depends on. */
  predicate Orderly(l: Live, r: Receipt) {
    (r.zone && r.table.None? ==> l.table) && (r.sysctl.Some? && r.link.None? ==> l.link.None?)
  }

  predicate Releasable(l: Live, receipt: Option<Receipt>, profile: Peer) {
    receipt.Some? && !Suspicious(l, receipt.value, profile) && Orderly(l, receipt.value)
  }

  // --- A complete lifetime, at rest or interrupted ---

  predicate LinkRests(k: Link, rec: LinkRecord, sys: SysctlRecord) {
    && !rec.fenced && rec.index == k.index
    && (if rec.provisional then sys.fenced || (sys.index == k.index && k.localnet)
        else k.config == Full(rec.peer) && !sys.fenced && sys.index == k.index && k.localnet)
  }

  /** All seven records, the anchors, and either no interface or the recorded one. */
  predicate Resumable(l: Live, receipt: Option<Receipt>) {
    && Prefix(l) && Anchored(l) && receipt.Some? && Whole(receipt.value)
    && (l.link.Some? ==> LinkRests(l.link.value, receipt.value.link.value, receipt.value.sysctl.value))
  }

  /** A replacement interface born but not recorded. */
  predicate Orphaned(l: Live, receipt: Option<Receipt>) {
    && Prefix(l) && Anchored(l) && receipt.Some? && Whole(receipt.value)
    && l.link.Some? && !l.preferred && receipt.value.link.value.fenced
  }

  predicate BoundTo(receipt: Option<Receipt>, first: Peer, second: Peer) {
    receipt.Some? && (receipt.value.table == Some(first) || receipt.value.table == Some(second))
  }

  datatype Command = Acquisition | Repair | Switch(target: Peer) | Rollback | Release | Discard

  /** A command run by a new process for the configured peer. */
  datatype Invocation = Invocation(command: Command, profile: Peer)

  /** The process is killed right after its (n + 1)-th command, and nothing else fails. */
  ghost predicate Doomed(fates: seq<Fate>, n: nat) {
    n < |fates| && fates[n] == DieAfter && forall k :: 0 <= k < |fates| && k != n ==> fates[k] == Done
  }

  class Network {
    var live: Live
    var receipt: Option<Receipt>
    var nextIndex: nat
    var fates: seq<Fate>
    // The process's own view, lost with it.
    var uncertain: bool
    var profile: Peer

    constructor (fates: seq<Fate>)
      ensures live == Live(false, false, false, None, false) && receipt.None? && this.fates == fates && !uncertain
    {
      live, receipt, nextIndex, uncertain, profile := Live(false, false, false, None, false), None, 0, false, 0;
      this.fates := fates;
    }

    ghost predicate Calm() reads `fates { forall k :: 0 <= k < |fates| ==> fates[k] == Done }

    method Next() returns (f: Fate)
      modifies `fates
      ensures old(Calm()) ==> Calm() && f == Done
      ensures forall n: nat :: old(Doomed(fates, n)) ==>
                if n > 0 then Doomed(fates, n - 1) && f == Done else Calm() && f == DieAfter
    {
      if fates == [] { return Done; }
      f := fates[0];
      fates := fates[1..];
    }

    /** A command with no lasting effect on the model: an observation, a check, a configuration detail. */
    method Step() returns (s: Status)
      modifies `fates
      ensures old(Calm()) ==> Calm() && s == Ok
      ensures forall n: nat :: old(Doomed(fates, n)) && n > 0 ==> Doomed(fates, n - 1) && s == Ok
    {
      var f := Next();
      s := StatusOf(f);
    }

    /** A command that changes the live objects. */
    method Apply(next: Live) returns (s: Status)
      modifies `fates, `live
      ensures live == next || (s != Ok && live == old(live))
      ensures old(Calm()) ==> Calm() && s == Ok
      ensures forall n: nat :: old(Doomed(fates, n)) && n > 0 ==> Doomed(fates, n - 1) && s == Ok
      ensures old(Doomed(fates, 0)) ==> Calm() && s == Dead && live == next
    {
      var f := Next();
      if Lands(f) { live := next; }
      s := StatusOf(f);
    }

    /** Replace the receipt; after an error the process no longer trusts its view. */
    method Publish(next: Receipt) returns (s: Status)
      modifies `fates, `receipt, `uncertain
      ensures receipt == Some(next) || (s != Ok && receipt == old(receipt))
      ensures s == Ok ==> uncertain == old(uncertain)
      ensures old(Calm()) ==> Calm() && s == Ok
      ensures forall n: nat :: old(Doomed(fates, n)) && n > 0 ==> Doomed(fates, n - 1) && s == Ok
    {
      var f := Next();
      if Lands(f) { receipt := Some(next); }
      s := StatusOf(f);
      if s != Ok { uncertain := true; }
    }

    /** Exclusive birth, then its record. */
    method Acquire(next: Live, record: Receipt) returns (s: Status)
      modifies `fates, `live, `receipt, `uncertain
      ensures live == next || (s != Ok && live == old(live))
      ensures receipt == Some(record) || (s != Ok && receipt == old(receipt))
      ensures receipt == old(receipt) || live == next
      ensures s == Ok ==> !uncertain
      ensures old(Calm()) ==> Calm() && s == Ok
      ensures forall n: nat :: old(Doomed(fates, n)) && n > 1 ==> Doomed(fates, n - 2) && s == Ok
      ensures old(Doomed(fates, 0)) ==> Calm() && s == Dead && live == next && receipt == old(receipt)
    {
      uncertain := true;
      :- Apply(next);
      :- Publish(record);
      uncertain := false;
      s := Ok;
    }

    /** Create, configure and raise the interface of the current peer; it is recorded at birth as provisional. */
    method InstallInterface() returns (s: Status)
      requires Prefix(live) && Anchored(live) && receipt.Some?
      modifies `fates, `live, `receipt, `uncertain, `nextIndex
      ensures Prefix(live) && SameAnchors(old(live), live) && receipt.Some?
      ensures receipt.value == old(receipt).value.(link := receipt.value.link, sysctl := receipt.value.sysctl)
      ensures old(receipt).value.link.Some? ==> receipt.value.link.Some?
      ensures old(live).link.None? ==> !live.preferred
      ensures s == Ok ==> !live.preferred && !uncertain && live.link.Some? && receipt.value.link.Some?
      ensures s == Ok ==> receipt.value.sysctl.Some?
      ensures s == Ok ==> LinkRests(live.link.value, receipt.value.link.value, receipt.value.sysctl.value)
      ensures s == Ok ==> Configured(receipt.value, profile)
      ensures FencedTunnel(old(receipt).value) && old(live).link.None? ==>
                receipt.value.sysctl.Some? &&
                (live.link.None? || receipt.value.link.value.fenced ||
                  LinkRests(live.link.value, receipt.value.link.value, receipt.value.sysctl.value))
      ensures old(Calm()) && old(live).link.None? ==> Calm() && s == Ok
    {
      if live.link.Some? { return Raised; }
      var index := nextIndex;
      nextIndex := nextIndex + 1;
      :- Acquire(live.(link := Some(Link(index, Partial, false)), preferred := false),
                 receipt.value.(link := Some(LinkRecord(index, true, profile, false))));
      :- Step();
      :- Apply(live.(link := Some(Link(index, Partial, true))));
      :- Publish(receipt.value.(sysctl := Some(SysctlRecord(index, false))));
      :- Apply(live.(link := Some(Link(index, Full(profile), true))));
      s := Publish(receipt.value.(link := Some(LinkRecord(index, false, profile, false))));
    }

    // --- Acquisition ---

    /** Refuse any leftover, publish an empty receipt, then acquire the fallback route and the rule. */
    method AcquireRouting() returns (s: Status)
      requires Prefix(live)
      modifies `fates, `live, `receipt, `uncertain
      ensures Prefix(live)
      ensures s == Ok ==> live == Live(true, true, false, None, false)
      ensures s == Ok ==> receipt == Some(NOTHING.(fallback := true, rule := true)) && !uncertain
      ensures old(Calm()) && old(receipt).None? && !old(uncertain) && !old(live).fallback ==> Calm() && s == Ok
      ensures old(Doomed(fates, 8)) && old(receipt).None? && !old(uncertain) && !old(live).fallback ==>
                Doomed(fates, 0) && s == Ok
    {
      if receipt.Some? || uncertain { return Raised; }
      :- Step();
      if live.fallback || live.rule || live.table || live.link.Some? || live.preferred { return Raised; }
      :- Publish(NOTHING);
      :- Step();
      :- Acquire(live.(fallback := true), receipt.value.(fallback := true));
      :- Acquire(live.(rule := true), receipt.value.(rule := true));
      s := Step();
    }

    /** Acquire everything from nothing, recording each object after its birth. */
    method Prepare() returns (s: Status)
      requires Prefix(live)
      modifies `fates, `live, `receipt, `uncertain, `nextIndex
      ensures Prefix(live)
      ensures s == Ok ==> receipt.Some? && Healthy(live, receipt.value, profile) && Resumable(live, receipt)
      ensures old(Calm()) && old(receipt).None? && !old(uncertain) && !old(live).fallback ==> s == Ok
      ensures old(Doomed(fates, 8)) && old(receipt).None? && !old(uncertain) && !old(live).fallback ==>
                Calm() && live == Live(true, true, true, None, false) &&
                  receipt == Some(NOTHING.(fallback := true, rule := true))
    {
      s := Ok;
      :- AcquireRouting();
      :- Acquire(live.(table := true), receipt.value.(table := Some(profile)));
      :- Publish(receipt.value.(zone := true));
      :- InstallInterface();
      :- Acquire(live.(preferred := true), receipt.value.(preferred := Some(false)));
      s := Step();
    }

    // --- Release ---

    /** Remove the preferred route with its record. */
    method RemovePreferred() returns (s: Status)
      requires Prefix(live) && receipt.Some? && !Suspicious(live, receipt.value, profile)
      modifies `fates, `live, `receipt, `uncertain
      ensures Prefix(live) && live == old(live).(preferred := live.preferred)
      ensures receipt.Some? && receipt.value == old(receipt).value.(preferred := receipt.value.preferred)
      ensures s == Ok ==> !live.preferred && receipt.value.preferred.None?
      ensures old(Calm()) ==> Calm() && s == Ok
    {
      if receipt.value.preferred.Some? {
        if live.preferred { :- Apply(live.(preferred := false)); }
        :- Publish(receipt.value.(preferred := None));
      }
      s := Ok;
    }

    /** Remove the preferred route and the interface, each with its record. */
    method RemoveTunnel() returns (s: Status)
      requires Prefix(live) && receipt.Some? && !Suspicious(live, receipt.value, profile)
      modifies `fates, `live, `receipt, `uncertain
      ensures Prefix(live) && SameAnchors(old(live), live) && receipt.Some?
      ensures receipt.value == old(receipt).value.(link := receipt.value.link, sysctl := receipt.value.sysctl,
                preferred := receipt.value.preferred)
      ensures old(Recorded(live, receipt)) ==> Recorded(live, receipt)
      ensures old(receipt).value.link.None? ==> live.link == old(live).link
      ensures s == Ok ==> receipt.value.link.None? && receipt.value.sysctl.None? && receipt.value.preferred.None?
      ensures s == Ok ==> !live.preferred
      ensures s == Ok && old(receipt).value.link.Some? ==> live.link.None?
      ensures old(Calm()) && old(Orderly(live, receipt.value)) ==> Calm() && s == Ok
    {
      s := Ok;
      :- RemovePreferred();
      if receipt.value.link.Some? {
        if live.link.Some? {
          if LookAtLink(live, receipt.value) != Matching { return Raised; }
          :- Apply(live.(link := None, preferred := false));
        }
        :- Publish(receipt.value.(link := None));
      }
      if receipt.value.sysctl.Some? {
        if live.link.Some? { return Raised; }
        :- Publish(receipt.value.(sysctl := None));
      }
      s := Ok;
    }

    /** Remove the zone's flows and the table, each with its record. */
    method RemoveTable() returns (s: Status)
      requires Prefix(live) && receipt.Some? && LookAtTable(live, receipt.value, profile) != Changed
      requires !live.preferred && receipt.value.link.None?
      modifies `fates, `live, `receipt, `uncertain
      ensures receipt.Some? && live == old(live).(table := live.table)
      ensures receipt.value == old(receipt).value.(table := receipt.value.table, zone := receipt.value.zone)
      ensures old(Recorded(live, receipt)) ==> Prefix(live) && Recorded(live, receipt)
      ensures old(receipt).value.table.None? ==> live.table == old(live).table
      ensures s == Ok ==>
                !receipt.value.zone && receipt.value.table.None? && (old(receipt).value.table.Some? ==> !live.table)
      ensures old(Calm()) ==> Calm() && s == Ok
    {
      if receipt.value.zone {
        :- Step();
        :- Publish(receipt.value.(zone := false));
      }
      if receipt.value.table.Some? {
        if live.table {
          if LookAtTable(live, receipt.value, profile) != Matching { return Raised; }
          :- Apply(live.(table := false));
        }
        :- Publish(receipt.value.(table := None));
      }
      s := Ok;
    }

    /** Remove the rule and the fallback route, each with its record. */
    method RemoveRouting() returns (s: Status)
      requires receipt.Some? && (live.fallback ==> receipt.value.fallback) && (live.rule ==> receipt.value.rule)
      modifies `fates, `live, `receipt, `uncertain
      ensures receipt.Some? && live == old(live).(rule := live.rule, fallback := live.fallback)
      ensures receipt.value == old(receipt).value.(rule := receipt.value.rule, fallback := receipt.value.fallback)
      ensures old(Prefix(live)) && !live.table ==> Prefix(live)
      ensures s == Ok ==> !receipt.value.rule && !receipt.value.fallback && !live.rule && !live.fallback
      ensures old(Calm()) ==> s == Ok
    {
      if receipt.value.rule {
        if live.rule { :- Apply(live.(rule := false)); }
        :- Publish(receipt.value.(rule := false));
      }
      if receipt.value.fallback {
        if live.fallback { :- Apply(live.(fallback := false)); }
        :- Publish(receipt.value.(fallback := false));
      }
      s := Ok;
    }

    /** Release everything recorded. The live objects stay a prefix if every live table and interface is recorded;
        otherwise a release that completes leaves them without their anchors. */
    method Disable() returns (s: Status)
      requires Prefix(live)
      modifies `fates, `live, `receipt, `uncertain
      ensures old(Recorded(live, receipt)) ==> Prefix(live) && Recorded(live, receipt)
      ensures s == Ok && old(receipt).Some? && old(receipt).value != NOTHING && !old(Recorded(live, receipt)) ==>
                !Prefix(live)
      ensures s == Ok && old(receipt).Some? && old(receipt).value != NOTHING && old(Recorded(live, receipt)) ==>
                live == Live(false, false, false, None, false)
      ensures s == Ok ==> receipt == if old(receipt).Some? then Some(NOTHING) else None
      ensures old(Calm() && !uncertain && Releasable(live, receipt, profile)) ==> s == Ok
    {
      if uncertain { return Raised; }
      if receipt.None? { return Ok; }
      :- Step();
      if receipt.value == NOTHING { return Ok; }
      if Suspicious(live, receipt.value, profile) { return Raised; }
      if receipt.value.zone && !live.table && receipt.value.table.None? { return Raised; }
      :- RemoveTunnel();
      :- RemoveTable();
      s := RemoveRouting();
    }

    /** Release an interrupted acquisition, after refusing any unrecorded live object. */
    method RollbackInterrupted() returns (s: Status)
      requires Prefix(live)
      modifies `fates, `live, `receipt, `uncertain
      ensures Prefix(live)
      ensures old(Recorded(live, receipt)) ==> Recorded(live, receipt)
      ensures s == Ok ==> receipt == Some(NOTHING) && live == Live(false, false, false, None, false)
      ensures old(Calm() && !uncertain && Releasable(live, receipt, profile) && Recorded(live, receipt)) ==>
                old(Whole(receipt.value)) || s == Ok
    {
      if uncertain || receipt.None? || Whole(receipt.value) { return Raised; }
      :- Step();
      if !Recorded(live, receipt) || Unexplained(live, receipt.value) { return Raised; }
      if receipt.value != NOTHING {
        if Suspicious(live, receipt.value, profile) { return Raised; }
        :- Disable();
        if receipt != Some(NOTHING) { return Raised; }
      }
      s := Ok;
    }

    // --- Repair and peer switch ---

    /** Delete a recorded interface that is not this peer's finished one, and a route whose rebirth was fenced but
        not recorded, so that both count as missing. */
    method ClearLeftovers() returns (s: Status)
      requires Prefix(live) && receipt.Some?
      modifies `fates, `live
      ensures Prefix(live) && SameAnchors(old(live), live)
      ensures (old(Orphaned(live, receipt)) || live.preferred) ==> live == old(live)
      ensures live.link == old(live).link || live.link.None?
      ensures old(Resumable(live, receipt)) ==> Resumable(live, receipt)
      ensures s == Ok && live.link.Some? && Reusable(live, receipt.value, profile) ==>
                Configured(receipt.value, profile) && !(receipt.value.preferred == Some(true) && live.preferred)
      ensures old(Calm()) ==> Calm() && s == Ok
    {
      if Reusable(live, receipt.value, profile) && !Configured(receipt.value, profile) {
        :- Apply(live.(link := None, preferred := false));
      }
      if receipt.value.preferred == Some(true) && live.preferred {
        :- Apply(live.(preferred := false));
      }
      s := Ok;
    }

    /** Fence the missing records, then create and record their replacements. */
    method Replace(all: bool) returns (s: Status)
      requires Prefix(live) && Anchored(live) && receipt.Some? && Whole(receipt.value) && !live.preferred
      requires if all then live.link.None? else live.link.Some? && Configured(receipt.value, profile)
      modifies `fates, `live, `receipt, `uncertain, `nextIndex
      ensures Prefix(live) && SameAnchors(old(live), live) && receipt.Some? && Whole(receipt.value)
      ensures receipt.value.table == old(receipt).value.table
      ensures old(Resumable(live, receipt)) ==> Resumable(live, receipt) || Orphaned(live, receipt)
      ensures s == Ok && old(Resumable(live, receipt)) && receipt.value.table == Some(profile) ==>
                Healthy(live, receipt.value, profile) && Resumable(live, receipt)
      ensures old(Calm()) ==> s == Ok
    {
      var r := receipt.value;
      :- Publish(r.(preferred := Some(true),
                    link := if all then Some(r.link.value.(fenced := true)) else r.link,
                    sysctl := if all then Some(r.sysctl.value.(fenced := true)) else r.sysctl));
      :- Step();
      if all { :- InstallInterface(); }
      :- Acquire(live.(preferred := true), receipt.value.(preferred := Some(false)));
      s := Step();
    }

    /** Recreate a missing preferred route or interface, never an anchor. */
    method RepairMissing() returns (s: Status)
      requires Prefix(live)
      modifies `fates, `live, `receipt, `uncertain, `nextIndex
      ensures Prefix(live) && SameAnchors(old(live), live)
      ensures old(Recorded(live, receipt)) ==> Recorded(live, receipt)
      ensures old(receipt.Some?) ==> receipt.Some? && receipt.value.table == old(receipt).value.table
      ensures old(Resumable(live, receipt)) ==> Resumable(live, receipt) || Orphaned(live, receipt)
      ensures old(Orphaned(live, receipt)) ==> s != Ok && live == old(live) && receipt == old(receipt)
      ensures s == Ok && old(Resumable(live, receipt)) ==>
                Healthy(live, receipt.value, profile) && Resumable(live, receipt)
      ensures old(Calm() && !uncertain && Resumable(live, receipt)) && old(receipt).value.table == Some(profile) ==>
                s == Ok
    {
      if uncertain || receipt.None? || receipt.value == NOTHING { return Raised; }
      :- Step();
      if Healthy(live, receipt.value, profile) { return Ok; }
      :- ClearLeftovers();
      var r := receipt.value;
      if Suspicious(live, r, profile) || !AnchorsMatch(live, r, profile) { return Raised; }
      if !Whole(r) || live.preferred { return Raised; }
      var all := live.link.None?;
      if !all && (LookAtSysctl(live, r) == Missing || !Configured(r, profile)) { return Raised; }
      :- Step();
      s := Replace(all);
    }

    /** Delete the preferred route and the interface, keeping their records as fences. */
    method DropTunnel() returns (s: Status)
      requires Prefix(live) && receipt.Some?
      modifies `fates, `live
      ensures Prefix(live) && SameAnchors(old(live), live) && (live.link == old(live).link || live.link.None?)
      ensures old(Resumable(live, receipt)) ==> Resumable(live, receipt)
      ensures s == Ok ==>
                live.link.None? && !live.preferred && receipt.value.link.Some? && receipt.value.preferred.Some?
      ensures old(Calm() && Resumable(live, receipt)) ==> Calm() && s == Ok
    {
      if receipt.value.preferred.None? { return Raised; }
      if live.preferred { :- Apply(live.(preferred := false)); }
      if receipt.value.link.None? { return Raised; }
      if live.link.Some? {
        if LookAtLink(live, receipt.value) != Matching { return Raised; }
        :- Apply(live.(link := None, preferred := false));
      }
      s := Step();
    }

    /** Move the tunnel to another peer. The table's record is rebound to the target once the old tunnel is gone, so
        a switch run again after any death knows which peer it was installing. */
    method SwitchPeer(target: Peer) returns (s: Status)
      requires Prefix(live)
      modifies `fates, `live, `receipt, `uncertain, `nextIndex, `profile
      ensures Prefix(live) && SameAnchors(old(live), live)
      ensures old(Recorded(live, receipt)) ==> Recorded(live, receipt)
      ensures s == Ok ==> receipt.Some? && Healthy(live, receipt.value, target) && Resumable(live, receipt)
      ensures old(Resumable(live, receipt) && BoundTo(receipt, profile, target)) ==>
                (Resumable(live, receipt) || Orphaned(live, receipt)) && BoundTo(receipt, old(profile), target)
      ensures old(Orphaned(live, receipt)) ==> s != Ok && live == old(live) && receipt == old(receipt)
      ensures old(Calm() && !uncertain && Resumable(live, receipt) && BoundTo(receipt, profile, target)) ==> s == Ok
    {
      if uncertain || receipt.None? || receipt.value.table.None? { return Raised; }
      :- Step();
      var bound := receipt.value.table.value;
      if bound == target { profile := target; } else if bound != profile { return Raised; }
      var r := receipt.value;
      if Suspicious(live, r, profile) || !AnchorsMatch(live, r, profile) { return Raised; }
      if bound == target && Healthy(live, r, profile) { return Ok; }
      :- DropTunnel();
      if receipt.value.sysctl.None? { return Raised; }
      :- Publish(receipt.value.(table := Some(target)));
      profile := target;
      s := RepairMissing();
    }

    // --- Whole runs ---

    /** One command of a new process, under any failures. */
    method Invoke(c: Invocation) returns (s: Status)
      requires Prefix(live)
      modifies this
      ensures !c.command.Release? || old(Recorded(live, receipt)) ==> Prefix(live)
      ensures c.command.Repair? || c.command.Switch? ==> SameAnchors(old(live), live)
      ensures c.command.Release? && s == Ok && old(receipt).Some? && old(receipt).value != NOTHING ==>
                (Prefix(live) <==> old(Recorded(live, receipt)))
      ensures c.command.Release? && old(Calm() && Releasable(live, receipt, c.profile)) ==> s == Ok
      ensures c.command.Acquisition? && old(Doomed(fates, 8) && receipt.None? && !live.fallback) ==>
                Calm() && live == Live(true, true, true, None, false) &&
                  receipt == Some(NOTHING.(fallback := true, rule := true))
    {
      uncertain, profile := false, c.profile;
      match c.command
      case Acquisition => s := Prepare();
      case Repair => s := RepairMissing();
      case Switch(target) => s := SwitchPeer(target);
      case Rollback => s := RollbackInterrupted();
      case Release => s := Disable();
      case Discard =>
        s := Ok;
        if receipt == Some(NOTHING) { receipt := None; }
    }

    /** In every run, killed anywhere and continued, in which each disable starts with every live table and
        interface recorded, the live objects form a prefix. */
    method Run(commands: seq<Invocation>)
      requires Prefix(live)
      modifies this
      ensures Prefix(live)
    {
      for k := 0 to |commands|
        invariant Prefix(live)
      {
        if !commands[k].command.Release? || Recorded(live, receipt) { var s := Invoke(commands[k]); }
      }
    }

    /** A switch killed anywhere and run again, undisturbed, completes on its target unless a replacement interface
        was born without a record; then it refuses and changes nothing. */
    method SwitchAgain(target: Peer, rest: seq<Fate>) returns (s: Status)
      requires Resumable(live, receipt) && BoundTo(receipt, profile, target) && !uncertain
      requires forall k :: 0 <= k < |rest| ==> rest[k] == Done
      modifies this
      ensures Prefix(live) && Anchored(live) && receipt.Some?
      ensures Healthy(live, receipt.value, target) || (s != Ok && Orphaned(live, receipt))
    {
      var active := profile;
      s := SwitchPeer(target);
      uncertain, profile, fates := false, active, rest;
      s := SwitchPeer(target);
    }
  }

  /** Without that condition the claim fails: an acquisition killed between the table's birth and its record, then
      a disable by a new process, leaves the table without its rule. */
  method DisableAfterUnrecordedTable(profile: Peer) returns (network: Network)
    ensures fresh(network) && !Prefix(network.live)
  {
    network := new Network([Done, Done, Done, Done, Done, Done, Done, Done, DieAfter]);
    assert Doomed(network.fates, 8);
    var s := network.Invoke(Invocation(Acquisition, profile));
    s := network.Invoke(Invocation(Release, profile));
  }
}
