/** Loading and removing the pinned guard: fifteen maps, then fifteen links, pinned one at a time into a staging
    directory that one rename publishes, and unpinned in the reverse order. The process may die at any step.

    A pin directory is the set of its map and link indices in pin order, with the policy its maps hold. Nobody
    else touches these directories, and unlinking an existing pin succeeds unless the process dies. The earlier
    build's smaller pin set is not part of this model. */
module PinOrder {
  import opened Options
  import opened Failures

  type Path = nat

  const MAPS := 15
  const LINKS := 15

  // The programs that drop cached labels and "no role" entries, in pin order: guard_bound, guard_renamed,
  // guard_attr and guard_rename. Every link after them may cache.
  const INVALIDATORS := {1, 2, 3, 4}
  const FIRST_CACHING := 5

  datatype Dir = Dir(maps: set<nat>, links: set<nat>, policy: set<Path>)

  predicate Index(i: nat) { true }

  function Below(n: nat): set<nat> { set i | 0 <= i < n && Index(i) }

  /** The members below `n`. */
  function Under(s: set<nat>, n: nat): set<nat> { set i | i in s && i < n }

  predicate Complete(d: Dir) { d.maps == Below(MAPS) && d.links == Below(LINKS) }

  /** A prefix of maps then links. */
  predicate Prefix(d: Dir) {
    exists m, l :: 0 <= m <= MAPS && 0 <= l <= LINKS && IsPrefix(d, m, l)
  }

  predicate IsPrefix(d: Dir, m: nat, l: nat) { d.maps == Below(m) && d.links == Below(l) && (l > 0 ==> m == MAPS) }

  predicate AllPrefixes(dirs: seq<Option<Dir>>) {
    forall k :: 0 <= k < |dirs| && dirs[k].Some? ==> Prefix(dirs[k].value)
  }

  /** A program that caches is pinned only with every program that invalidates. */
  lemma CachesHaveInvalidators(d: Dir, link: nat)
    requires Prefix(d) && link in d.links && link >= FIRST_CACHING
    ensures INVALIDATORS <= d.links && d.maps == Below(MAPS)
  {
    var m, l :| 0 <= m <= MAPS && 0 <= l <= LINKS && IsPrefix(d, m, l);
  }

  // --- Inspecting an interrupted load ---

  datatype Generation = Generation(links: nat, maps: bool)

  /** What a partial inspection accepts: only known entries, links in pin order, and no link without every map. */
  predicate Acceptable(d: Dir) {
    && d.maps <= Below(MAPS)
    && exists l :: 0 <= l <= LINKS && d.links == Below(l) && (l > 0 ==> d.maps == Below(MAPS))
  }

  lemma BelowSize(n: nat)
    ensures |Below(n)| == n
    decreases n
  {
    if n > 0 {
      BelowSize(n - 1);
      assert Below(n) == Below(n - 1) + {n - 1};
    }
  }

  lemma SubsetSize(s: set<nat>, n: nat)
    requires s <= Below(n)
    ensures |s| <= n && (|s| == n <==> s == Below(n))
  {
    BelowSize(n);
    var rest := Below(n) - s;
    assert Below(n) == s + rest && s !! rest;
    assert |Below(n)| == |s| + |rest|;
    if |s| == n { assert rest == {}; assert s == Below(n); }
  }

  /** Count the pinned maps. */
  method AllMaps(d: Dir) returns (all: bool)
    requires d.maps <= Below(MAPS)
    ensures all <==> d.maps == Below(MAPS)
  {
    var pinned := 0;
    ghost var seen: set<nat> := {};
    for i := 0 to MAPS
      invariant seen == Under(d.maps, i) && pinned == |seen|
    {
      if i in d.maps { pinned := pinned + 1; seen := seen + {i}; }
    }
    assert seen == d.maps;
    SubsetSize(d.maps, MAPS);
    all := pinned == MAPS;
  }

  lemma NotInOrder(d: Dir, i: nat, links: nat, all: bool)
    requires d.maps <= Below(MAPS) && all == (d.maps == Below(MAPS))
    requires i in d.links && links <= i && Under(d.links, i) == Below(links) && (links != i || !all)
    ensures !Acceptable(d)
  {
    assert links !in Below(links) && (links in Under(d.links, i) <==> links in d.links && links < i);
    forall l | 0 <= l <= LINKS && d.links == Below(l) ensures l > 0 && !all {
      assert i < l;
      assert links in d.links;
    }
  }

  lemma UnderNext(s: set<nat>, i: nat)
    ensures Under(s, i + 1) == Under(s, i) + (if i in s then {i} else {})
  {
  }

  lemma InOrder(d: Dir, links: nat, all: bool)
    requires d.maps <= Below(MAPS) && all == (d.maps == Below(MAPS)) && (links > 0 ==> all)
    requires d.links <= Below(LINKS) && links <= LINKS && Under(d.links, LINKS) == Below(links)
    ensures d.links == Below(links) && Acceptable(d)
  {
    assert d.links == Under(d.links, LINKS);
  }

  /** Inspect a directory an interrupted load may have left. */
  method Inspect(d: Dir) returns (found: Option<Generation>)
    ensures found.Some? <==> Acceptable(d)
    ensures found.Some? ==> d.links == Below(found.value.links) && (found.value.maps <==> d.maps == Below(MAPS))
  {
    if !(d.maps <= Below(MAPS)) || !(d.links <= Below(LINKS)) { return None; }
    var all := AllMaps(d);
    var links := 0;
    for i := 0 to LINKS
      invariant links <= i && Under(d.links, i) == Below(links) && (links > 0 ==> all)
    {
      UnderNext(d.links, i);
      if i in d.links {
        if links != i || !all {
          NotInOrder(d, i, links, all);
          return None;
        }
        links := links + 1;
        assert Below(links) == Below(i) + {i};
      }
    }
    InOrder(d, links, all);
    found := Some(Generation(links, all));
  }

  /** Inspect a directory in full. */
  method InspectFull(d: Dir) returns (whole: bool)
    ensures whole <==> Complete(d)
  {
    if !(d.maps <= Below(MAPS)) || !(d.links <= Below(LINKS)) { return false; }
    whole := AllMaps(d);
    for i := 0 to LINKS
      invariant whole <==> d.maps == Below(MAPS) && Under(d.links, i) == Below(i)
    {
      UnderNext(d.links, i);
      FirstLinks(d.links, i);
      if i !in d.links { whole := false; }
    }
    assert Under(d.links, LINKS) == d.links;
  }

  lemma FirstLinks(s: set<nat>, i: nat)
    ensures Under(s, i + 1) == Below(i + 1) <==> Under(s, i) == Below(i) && i in s
  {
    assert i in Below(i + 1) && i !in Below(i);
    assert Below(i + 1) == Below(i) + {i};
    if Under(s, i + 1) == Below(i + 1) {
      assert i in Under(s, i + 1);
      assert Under(s, i) == Under(s, i + 1) - {i};
      assert Below(i) == Below(i + 1) - {i};
    }
  }

  /** Every prefix is accepted. */
  lemma PrefixIsAccepted(d: Dir)
    requires Prefix(d)
    ensures Acceptable(d)
  {
    var m, l :| 0 <= m <= MAPS && 0 <= l <= LINKS && IsPrefix(d, m, l);
    assert d.links == Below(l);
  }

  /** The converse fails: without links, any set of maps is accepted, not only one lacking trailing pins. */
  lemma AcceptedIsNotAlwaysPrefix() returns (d: Dir)
    ensures Acceptable(d) && !Prefix(d)
  {
    d := Dir({1}, {}, {});
    assert d.links == Below(0);
    assert 1 in d.maps && 0 !in d.maps;
    assert forall m: nat :: 1 in Below(m) ==> 0 in Below(m);
  }

  /** Exactly: an accepted directory is a prefix when it has a link or its maps are a prefix. */
  lemma AcceptedPrefixes(d: Dir)
    requires Acceptable(d)
    ensures Prefix(d) <==> d.links != {} || exists m :: 0 <= m <= MAPS && d.maps == Below(m)
  {
    var l :| 0 <= l <= LINKS && d.links == Below(l) && (l > 0 ==> d.maps == Below(MAPS));
    assert l > 0 <==> 0 in Below(l);
    if d.links != {} {
      assert IsPrefix(d, MAPS, l);
    } else {
      if exists m :: 0 <= m <= MAPS && d.maps == Below(m) {
        var m :| 0 <= m <= MAPS && d.maps == Below(m);
        assert IsPrefix(d, m, 0);
      }
    }
  }

  // --- Protection ---

  /** The directory attaches `link` with `path` in its policy. */
  predicate Guards(d: Option<Dir>, link: nat, path: Path) { d.Some? && link in d.value.links && path in d.value.policy }

  ghost predicate Guarded(dirs: seq<Option<Dir>>, link: nat, path: Path) {
    exists k :: 0 <= k < |dirs| && Guards(dirs[k], link, path)
  }

  /** Whatever was protected still is. */
  ghost predicate Kept(before: seq<Option<Dir>>, after: seq<Option<Dir>>) {
    forall link, path :: Guarded(before, link, path) ==> Guarded(after, link, path)
  }

  /** Directories other than `k` did not change. */
  predicate Only(k: nat, before: seq<Option<Dir>>, after: seq<Option<Dir>>) {
    |after| == |before| && forall j :: 0 <= j < |before| && j != k ==> after[j] == before[j]
  }

  /** Changing a directory that protected nothing keeps protection. */
  lemma OnlyIdle(k: nat, before: seq<Option<Dir>>, after: seq<Option<Dir>>)
    requires Only(k, before, after) && k < |before| && (before[k].None? || before[k].value.links == {})
    ensures Kept(before, after)
  {
    forall link, path | Guarded(before, link, path) ensures Guarded(after, link, path) {
      var j :| 0 <= j < |before| && Guards(before[j], link, path);
      assert Guards(after[j], link, path);
    }
  }

  /** So does changing one that another covers. */
  lemma OnlyCovered(k: nat, other: nat, before: seq<Option<Dir>>, after: seq<Option<Dir>>)
    requires Only(k, before, after) && k < |before| && other < |before| && other != k && before[k].Some?
    requires before[other].Some?
    requires before[k].value.links <= before[other].value.links && before[k].value.policy <= before[other].value.policy
    ensures Kept(before, after)
  {
    forall link, path | Guarded(before, link, path) ensures Guarded(after, link, path) {
      var j :| 0 <= j < |before| && Guards(before[j], link, path);
      assert Guards(after[if j == k then other else j], link, path);
    }
  }

  lemma KeptTrans(a: seq<Option<Dir>>, b: seq<Option<Dir>>, c: seq<Option<Dir>>)
    requires Kept(a, b) && Kept(b, c)
    ensures Kept(a, c)
  {
  }

  predicate Published(dirs: seq<Option<Dir>>) { dirs != [] && dirs[OWNED].Some? && Complete(dirs[OWNED].value) }

  /** Protection carried over: what was protected still is, or a complete generation is published. A complete
      published generation stays. */
  ghost predicate Sheltered(before: seq<Option<Dir>>, after: seq<Option<Dir>>) {
    && (Kept(before, after) || Published(after))
    && (Published(before) ==> after != [] && after[OWNED] == before[OWNED])
  }

  lemma ShelteredTrans(a: seq<Option<Dir>>, b: seq<Option<Dir>>, c: seq<Option<Dir>>)
    requires Sheltered(a, b) && Sheltered(b, c)
    ensures Sheltered(a, c)
  {
    if Kept(a, b) && Kept(b, c) { KeptTrans(a, b, c); }
  }

  /** Every directory is accepted by the next inspection and pins no caching program without every invalidator. */
  ghost predicate Sane(dirs: seq<Option<Dir>>) {
    forall k :: 0 <= k < |dirs| && dirs[k].Some? ==> Acceptable(dirs[k].value) && Invalidated(dirs[k].value)
  }

  ghost predicate Invalidated(d: Dir) {
    forall link :: link in d.links && link >= FIRST_CACHING ==> INVALIDATORS <= d.links
  }

  lemma PrefixesAreSane(dirs: seq<Option<Dir>>)
    requires AllPrefixes(dirs)
    ensures Sane(dirs)
  {
    forall k | 0 <= k < |dirs| && dirs[k].Some? ensures Acceptable(dirs[k].value) && Invalidated(dirs[k].value) {
      var d := dirs[k].value;
      PrefixIsAccepted(d);
      forall link | link in d.links && link >= FIRST_CACHING ensures INVALIDATORS <= d.links {
        CachesHaveInvalidators(d, link);
      }
    }
  }

  /** Between two removals, whatever any generation protected stays protected unless a complete one is published. */
  ghost predicate AlwaysSheltered(commands: seq<Command>, trace: seq<seq<Option<Dir>>>)
    requires |trace| <= |commands| + 1
  {
    forall i, j :: 0 <= i <= j < |trace| && Remove !in commands[i..j] ==> Sheltered(trace[i], trace[j])
  }

  lemma ShelterExtends(commands: seq<Command>, trace: seq<seq<Option<Dir>>>, dirs: seq<Option<Dir>>)
    requires 0 < |trace| <= |commands| && AlwaysSheltered(commands, trace) && Sheltered(dirs, dirs)
    requires commands[|trace| - 1] != Remove ==> Sheltered(trace[|trace| - 1], dirs)
    ensures AlwaysSheltered(commands, trace + [dirs])
  {
    var n := |trace| - 1;
    forall i | 0 <= i <= n && Remove !in commands[i..n + 1] ensures Sheltered(trace[i], dirs) {
      assert commands[i..n + 1] == commands[i..n] + [commands[n]];
      ShelteredTrans(trace[i], trace[n], dirs);
    }
  }

  const OWNED := 0  // The published directory; 1 and 2 are the staging names.

  datatype Command = Load(policy: set<Path>) | Settle | Remove

  class Loader {
    var dirs: seq<Option<Dir>>
    var fates: seq<Fate>

    constructor (fates: seq<Fate>)
      ensures Valid() && dirs == [None, None, None] && this.fates == fates
    {
      dirs := [None, None, None];
      this.fates := fates;
    }

    /** Every pin directory is a prefix, at every step. */
    ghost predicate Valid() reads this { |dirs| == 3 && AllPrefixes(dirs) }

    /** A complete directory is published. */
    predicate Replaced() reads this { Published(dirs) }

    /** From here on no step fails. */
    ghost predicate Calm() reads this { forall k :: 0 <= k < |fates| ==> fates[k] == Done }

    method Next() returns (f: Fate)
      modifies `fates
      ensures old(Calm()) ==> Calm() && f == Done
    {
      if fates == [] { return Done; }
      f := fates[0];
      fates := fates[1..];
    }

    method Step() returns (s: Status)
      modifies `fates
      ensures old(Calm()) ==> Calm() && s == Ok
    {
      var f := Next();
      s := StatusOf(f);
    }

    // --- One directory ---

    /** Pin every map, then attach and pin every link, into a new directory. */
    method Pin(k: nat, policy: set<Path>) returns (s: Status)
      requires Valid() && k < 3 && dirs[k].None?
      modifies `dirs, `fates
      ensures Valid() && Only(k, old(dirs), dirs)
      ensures s == Ok ==> dirs[k].Some? && Complete(dirs[k].value) && dirs[k].value.policy == policy
      ensures old(Calm()) ==> Calm() && s == Ok
    {
      var f := Next();
      if !Lands(f) { return StatusOf(f); }
      var d := Dir({}, {}, policy);
      assert Below(0) == {} && IsPrefix(d, 0, 0);
      dirs := dirs[k := Some(d)];
      if !f.Done? { return StatusOf(f); }
      for i := 0 to MAPS
        invariant old(Calm()) ==> Calm()
        invariant Valid() && Only(k, old(dirs), dirs) && dirs[k] == Some(Dir(Below(i), {}, policy))
      {
        f := Next();
        if Lands(f) {
          d := Dir(dirs[k].value.maps + {i}, {}, policy);
          assert Below(i) + {i} == Below(i + 1) && IsPrefix(d, i + 1, 0);
          dirs := dirs[k := Some(d)];
        }
        if !f.Done? { return StatusOf(f); }
      }
      s := PinLinks(k, policy);
    }

    method PinLinks(k: nat, policy: set<Path>) returns (s: Status)
      requires Valid() && k < 3 && dirs[k] == Some(Dir(Below(MAPS), {}, policy))
      modifies `dirs, `fates
      ensures Valid() && Only(k, old(dirs), dirs)
      ensures s == Ok ==> dirs[k].Some? && Complete(dirs[k].value) && dirs[k].value.policy == policy
      ensures old(Calm()) ==> Calm() && s == Ok
    {
      assert Below(0) == {};
      for i := 0 to LINKS
        invariant old(Calm()) ==> Calm()
        invariant Valid() && Only(k, old(dirs), dirs) && dirs[k] == Some(Dir(Below(MAPS), Below(i), policy))
      {
        var f := Next();
        if Lands(f) {
          var d := Dir(Below(MAPS), dirs[k].value.links + {i}, policy);
          assert Below(i) + {i} == Below(i + 1) && IsPrefix(d, MAPS, i + 1);
          dirs := dirs[k := Some(d)];
        }
        if !f.Done? { return StatusOf(f); }
      }
      s := Ok;
    }

    /** Unpin a directory in reverse pin order and remove it. A removal of the owned directory stops at an error. */
    method Unpin(k: nat) returns (s: Status)
      requires Valid() && k < 3
      modifies `dirs, `fates
      ensures Valid() && Only(k, old(dirs), dirs)
      ensures s == Ok ==> dirs[k].None?
      ensures s == Raised ==> k == OWNED
      ensures old(Calm()) ==> Calm() && s == Ok
    {
      if dirs[k].None? { return Ok; }
      ghost var m, l :| 0 <= m <= MAPS && 0 <= l <= LINKS && IsPrefix(dirs[k].value, m, l);
      var n := LINKS;
      while n > 0
        invariant old(Calm()) ==> Calm()
        invariant 0 <= n <= LINKS && Valid() && Only(k, old(dirs), dirs)
        invariant dirs[k].Some? && IsPrefix(dirs[k].value, m, if n < l then n else l)
      {
        n := n - 1;
        var f := Next();
        if Lands(f) || (k != OWNED && StatusOf(f) != Dead) {
          ghost var rest := if n < l then n else l;
          assert Below(if n + 1 < l then n + 1 else l) - {n} == Below(rest);
          var d := dirs[k].value.(links := dirs[k].value.links - {n});
          assert IsPrefix(d, m, rest);
          dirs := dirs[k := Some(d)];
        }
        if StatusOf(f) == Dead || (k == OWNED && StatusOf(f) != Ok) { return StatusOf(f); }
      }
      s := UnpinMaps(k, m);
    }

    method UnpinMaps(k: nat, ghost m: nat) returns (s: Status)
      requires Valid() && k < 3 && dirs[k].Some? && m <= MAPS && IsPrefix(dirs[k].value, m, 0)
      modifies `dirs, `fates
      ensures Valid() && Only(k, old(dirs), dirs)
      ensures s == Ok ==> dirs[k].None?
      ensures s == Raised ==> k == OWNED
      ensures old(Calm()) ==> Calm() && s == Ok
    {
      var n := MAPS;
      while n > 0
        invariant old(Calm()) ==> Calm()
        invariant 0 <= n <= MAPS && Valid() && Only(k, old(dirs), dirs)
        invariant dirs[k].Some? && IsPrefix(dirs[k].value, if n < m then n else m, 0)
      {
        n := n - 1;
        var f := Next();
        if Lands(f) || (k != OWNED && StatusOf(f) != Dead) {
          ghost var rest := if n < m then n else m;
          assert Below(if n + 1 < m then n + 1 else m) - {n} == Below(rest);
          var d := dirs[k].value.(maps := dirs[k].value.maps - {n});
          assert IsPrefix(d, rest, 0);
          dirs := dirs[k := Some(d)];
        }
        if StatusOf(f) == Dead || (k == OWNED && StatusOf(f) != Ok) { return StatusOf(f); }
      }
      var f := Next();
      if Lands(f) || (k != OWNED && StatusOf(f) != Dead) { dirs := dirs[k := None]; }
      s := if k != OWNED && StatusOf(f) == Raised then Ok else StatusOf(f);
    }

    // --- The loader's commands ---

    /** With both staging names held, choose one whose protection the other provides. */
    method CoveredGeneration(a: Generation, b: Generation) returns (covered: Option<nat>)
      requires Valid() && dirs[1].Some? && dirs[2].Some?
      requires dirs[1].value.links == Below(a.links) && dirs[2].value.links == Below(b.links)
      ensures covered.Some? ==>
                covered.value in {1, 2} && forall after :: Only(covered.value, dirs, after) ==> Kept(dirs, after)
      ensures covered.None? <==> a.links > 0 && b.links > 0 &&
                                 !(a.links <= b.links && b.maps && dirs[1].value.policy <= dirs[2].value.policy) &&
                                 !(b.links <= a.links && a.maps && dirs[2].value.policy <= dirs[1].value.policy)
    {
      var mine, theirs := dirs[1].value.policy, dirs[2].value.policy;
      if a.links == 0 {
        covered := Some(1);
        forall after | Only(1, dirs, after) ensures Kept(dirs, after) { OnlyIdle(1, dirs, after); }
      } else if a.links <= b.links && b.maps && mine <= theirs {
        covered := Some(1);
        forall after | Only(1, dirs, after) ensures Kept(dirs, after) { OnlyCovered(1, 2, dirs, after); }
      } else if b.links == 0 {
        covered := Some(2);
        forall after | Only(2, dirs, after) ensures Kept(dirs, after) { OnlyIdle(2, dirs, after); }
      } else if b.links <= a.links && a.maps && theirs <= mine {
        covered := Some(2);
        forall after | Only(2, dirs, after) ensures Kept(dirs, after) { OnlyCovered(2, 1, dirs, after); }
      } else {
        covered := None;
      }
    }

    /** Inspect both staging names and free one if both are held; nothing unprotected results. */
    method MakeRoom() returns (s: Status)
      requires Valid() && dirs[OWNED].None?
      modifies `dirs, `fates
      ensures Valid() && dirs[OWNED].None? && Kept(old(dirs), dirs)
      ensures s == Ok ==> dirs[1].None? || dirs[2].None?
      ensures old(Calm()) && (old(dirs)[1].None? || old(dirs)[2].None?) ==> Calm() && s == Ok
    {
      var first, second := Some(Generation(0, false)), Some(Generation(0, false));
      if dirs[1].Some? {
        PrefixIsAccepted(dirs[1].value);
        first := Inspect(dirs[1].value);
      }
      if dirs[2].Some? {
        PrefixIsAccepted(dirs[2].value);
        second := Inspect(dirs[2].value);
      }
      if first.None? || second.None? { return Raised; }
      :- Step();
      if dirs[1].None? || dirs[2].None? { return Ok; }
      var covered := CoveredGeneration(first.value, second.value);
      if covered.None? { return Raised; }
      s := Unpin(covered.value);
    }

    /** Build a replacement in a free staging directory; on failure only this attempt is removed. */
    method Stage(k: nat, policy: set<Path>) returns (s: Status)
      requires Valid() && k in {1, 2} && dirs[k].None?
      modifies `dirs, `fates
      ensures Valid() && Only(k, old(dirs), dirs)
      ensures s == Ok ==> dirs[k].Some? && Complete(dirs[k].value) && dirs[k].value.policy == policy
      ensures s == Raised ==> dirs[k].None?
      ensures old(Calm()) ==> Calm() && s == Ok
    {
      s := Pin(k, policy);
      if s == Ok { s := Step(); }
      if s == Raised {
        s := Unpin(k);
        if s == Ok { s := Raised; }
      }
    }

    /** Load and publish a guard. Interrupted generations keep protecting until it is published. */
    method LoadGuard(policy: set<Path>) returns (s: Status)
      requires Valid()
      modifies `dirs, `fates
      ensures Valid()
      ensures Kept(old(dirs), dirs) || (old(dirs)[OWNED].None? && Replaced() && dirs[OWNED].value.policy == policy)
      ensures Sheltered(old(dirs), dirs)
      ensures s == Ok ==> old(dirs)[OWNED].None? && Replaced() && dirs[OWNED].value.policy == policy && dirs[1].None?
      ensures s == Ok ==> dirs[2].None?
      ensures old(dirs)[OWNED].Some? ==> s != Ok && dirs == old(dirs)
      ensures old(Calm()) && old(dirs)[OWNED].None? && (old(dirs)[1].None? || old(dirs)[2].None?) ==> s == Ok
    {
      if dirs[OWNED].Some? { return Raised; }
      :- MakeRoom();
      ghost var room := dirs;
      var k := if dirs[1].None? then 1 else 2;
      s := Stage(k, policy);
      OnlyIdle(k, room, dirs);
      KeptTrans(old(dirs), room, dirs);
      if s != Ok { return; }
      var f := Next();
      if Lands(f) { dirs := dirs[OWNED := dirs[k]][k := None]; }
      if StatusOf(f) == Dead { return Dead; }
      if StatusOf(f) == Raised && Lands(f) { return Raised; }
      if StatusOf(f) == Raised {
        s := Unpin(k);
        assert Only(k, room, dirs);
        OnlyIdle(k, room, dirs);
        KeptTrans(old(dirs), room, dirs);
        return if s == Ok then Raised else s;
      }
      s := Unpin(3 - k);
    }

    /** Detach what a published guard replaced, after inspecting it in full: every map and every link. */
    method SettleGuard() returns (s: Status)
      requires Valid()
      modifies `dirs, `fates
      ensures Valid() && dirs[OWNED] == old(dirs)[OWNED]
      ensures dirs == old(dirs) || Replaced()
      ensures s == Ok ==> Replaced() && dirs[1].None? && dirs[2].None?
      ensures old(Calm() && Replaced()) ==> s == Ok
    {
      if dirs[OWNED].None? { return Raised; }
      var whole := InspectFull(dirs[OWNED].value);
      if !whole { return Raised; }
      :- Step();
      for k := 1 to 3
        invariant Valid() && dirs[OWNED] == old(dirs)[OWNED] && Replaced()
        invariant forall j :: 1 <= j < k ==> dirs[j].None?
        invariant old(Calm()) ==> Calm()
      {
        if dirs[k].Some? {
          PrefixIsAccepted(dirs[k].value);
          var found := Inspect(dirs[k].value);
          if found.None? { return Raised; }
          :- Unpin(k);
        }
      }
      s := Ok;
    }

    /** One command, under any failures. A removal may resume an interrupted one. */
    method Invoke(c: Command) returns (s: Status)
      requires Valid()
      modifies `dirs, `fates
      ensures Valid()
      ensures c != Remove ==> Sheltered(old(dirs), dirs)
      ensures c == Remove ==> Only(OWNED, old(dirs), dirs)
    {
      match c
      case Load(policy) => s := LoadGuard(policy);
      case Settle => s := SettleGuard();
      case Remove => s := Unpin(OWNED);
    }

    /** Every run of loads, settlings and removals, killed anywhere and repeated: each directory stays a prefix, is
        accepted by the next inspection, and pins no caching program without every invalidator. Between two removals
        whatever any generation protected stays protected, unless a complete one is published. `trace` holds the
        directories before the first command and after each. */
    method Run(commands: seq<Command>) returns (trace: seq<seq<Option<Dir>>>)
      requires Valid()
      modifies this
      ensures Valid() && |trace| == |commands| + 1 && trace[0] == old(dirs) && trace[|commands|] == dirs
      ensures Sane(dirs) && AlwaysSheltered(commands, trace)
    {
      trace := [dirs];
      for n := 0 to |commands|
        invariant Valid() && |trace| == n + 1 && trace[0] == old(dirs) && trace[n] == dirs
        invariant AlwaysSheltered(commands, trace)
      {
        var s := Invoke(commands[n]);
        ShelterExtends(commands, trace, dirs);
        trace := trace + [dirs];
      }
      PrefixesAreSane(dirs);
    }
  }
}
