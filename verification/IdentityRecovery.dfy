/** Recovering the identity of a listed entry whose path does not resolve: every identifier it had, from the filters
    tagged with it and from the identity record together, each with the path it was attributed by. The filters an
    identity produces carry the entry and the path as one text with a tab between them.

    The engine may return filters in any order, with filters of other entries among them. */
module IdentityRecovery {
  import opened Options
  import opened Sorting
  import opened IdentityText

  type Path = string

  const EMPTY: Path := ""
  const NO_ID: Id := []

  type Pair = (Path, Id)

  // --- The orders of paths and identifiers ---

  predicate CharLess(a: char, b: char) { a < b }

  predicate ByteLess(a: byte, b: byte) { a < b }

  predicate PathLess(a: Path, b: Path) { LexLess(a, b, CharLess) }

  predicate IdLess(a: Id, b: Id) { LexLess(a, b, ByteLess) }

  lemma PathOrder()
    ensures TotalOrder(PathLess)
  {
    forall a: Path ensures !PathLess(a, a) { LexIrreflexive(a, CharLess); }
    forall a: Path, b: Path ensures a == b || PathLess(a, b) || PathLess(b, a) { LexTotal(a, b, CharLess); }
    forall a: Path, b: Path, c: Path | PathLess(a, b) && PathLess(b, c) ensures PathLess(a, c) {
      LexTransitive(a, b, c, CharLess);
    }
  }

  lemma IdOrder()
    ensures TotalOrder(IdLess)
  {
    forall a: Id ensures !IdLess(a, a) { LexIrreflexive(a, ByteLess); }
    forall a: Id, b: Id ensures a == b || IdLess(a, b) || IdLess(b, a) { LexTotal(a, b, ByteLess); }
    forall a: Id, b: Id, c: Id | IdLess(a, b) && IdLess(b, c) ensures IdLess(a, c) { LexTransitive(a, b, c, ByteLess); }
  }

  ghost function PathsInOrder(s: set<Path>): (r: seq<Path>)
    ensures Elements(r) == s
    ensures Ascending(r, PathLess) && forall i, j :: 0 <= i < j < |r| ==> r[i] != r[j]
  {
    PathOrder();
    Ordered(s, PathLess)
  }

  ghost function IdsInOrder(s: set<Id>): (r: seq<Id>)
    ensures Elements(r) == s
  {
    IdOrder();
    Ordered(s, IdLess)
  }

  // --- Gathering ---

  /** Each identifier with the path it first came with. */
  type Origins = map<Id, Path>

  function Add(m: Origins, pair: Pair): Origins {
    if pair.1 == NO_ID || pair.1 in m then m else m[pair.1 := pair.0]
  }

  function Gather(pairs: seq<Pair>): Origins {
    if pairs == [] then map[] else Add(Gather(pairs[..|pairs| - 1]), pairs[|pairs| - 1])
  }

  function Paths(m: Origins): set<Path> { set id | id in m && m[id] != EMPTY :: m[id] }

  function IdsAt(m: Origins, path: Path): set<Id> { set id | id in m && m[id] == path }

  ghost function Groups(m: Origins, paths: seq<Path>): (r: seq<Group>)
    ensures |r| == |paths| && forall i :: 0 <= i < |r| ==> r[i] == Group(paths[i], IdsInOrder(IdsAt(m, paths[i])))
  {
    seq(|paths|, i requires 0 <= i < |paths| => Group(paths[i], IdsInOrder(IdsAt(m, paths[i]))))
  }

  /** The identity: the first path with its identifiers and those without a path, then the other paths. */
  ghost function Arrange(m: Origins): Identity {
    var paths := PathsInOrder(Paths(m));
    if paths == [] then Identity(EMPTY, IdsInOrder(IdsAt(m, EMPTY)), [])
    else Identity(paths[0], IdsInOrder(IdsAt(m, paths[0]) + IdsAt(m, EMPTY)), Groups(m, paths[1..]))
  }

  // --- What an identity is made of ---

  function Attributions(path: Path, ids: seq<Id>): (r: seq<Pair>)
    ensures |r| == |ids| && forall i :: 0 <= i < |r| ==> r[i] == (path, ids[i])
  {
    seq(|ids|, i requires 0 <= i < |ids| => (path, ids[i]))
  }

  lemma Attributed(path: Path, ids: seq<Id>, p: Pair)
    ensures p in Attributions(path, ids) <==> p.0 == path && p.1 in ids
  {
    if p.0 == path && p.1 in ids {
      var i :| 0 <= i < |ids| && ids[i] == p.1;
      assert Attributions(path, ids)[i] == p;
    }
  }

  function GroupAttributions(groups: seq<Group>): seq<Pair> {
    if groups == [] then [] else Attributions(groups[0].path, groups[0].ids) + GroupAttributions(groups[1..])
  }

  /** The pairs of an identity, as the filters it produces carry them and as its record lists them. */
  function Pairs(identity: Identity): seq<Pair> {
    Attributions(identity.path, identity.ids) + GroupAttributions(identity.others)
  }

  lemma {:induction false} GroupAttributed(groups: seq<Group>, p: Pair)
    ensures p in GroupAttributions(groups) <==> exists i :: 0 <= i < |groups| && groups[i].path == p.0 &&
                                                            p.1 in groups[i].ids
    decreases |groups|
  {
    if groups != [] {
      Attributed(groups[0].path, groups[0].ids, p);
      GroupAttributed(groups[1..], p);
      assert forall i :: 0 < i < |groups| ==> groups[1..][i - 1] == groups[i];
      if i :| 0 <= i < |groups[1..]| && groups[1..][i].path == p.0 && p.1 in groups[1..][i].ids {
        assert groups[i + 1].path == p.0 && p.1 in groups[i + 1].ids;
      }
    }
  }

  // --- Nothing is lost ---

  /** Every identifier seen is gathered, with a path it came with. */
  lemma {:induction false} GatherKeeps(pairs: seq<Pair>)
    ensures forall id :: id in Gather(pairs) ==> id != NO_ID && (Gather(pairs)[id], id) in pairs
    ensures forall p: Pair :: p in pairs && p.1 != NO_ID ==> p.1 in Gather(pairs)
    decreases |pairs|
  {
    if pairs != [] {
      var n := |pairs| - 1;
      GatherKeeps(pairs[..n]);
      assert pairs == pairs[..n] + [pairs[n]];
    }
  }

  /** The path an identifier ends up with: those without one join the first path. */
  ghost function Home(m: Origins, id: Id): Path
    requires id in m
  {
    var paths := PathsInOrder(Paths(m));
    if m[id] == EMPTY && paths != [] then paths[0] else m[id]
  }

  /** The identity attributes exactly the gathered identifiers, each by its home. */
  lemma ArrangedPairs(m: Origins, p: Pair)
    ensures p in Pairs(Arrange(m)) <==> p.1 in m && p.0 == Home(m, p.1)
  {
    var paths := PathsInOrder(Paths(m));
    var identity := Arrange(m);
    Attributed(identity.path, identity.ids, p);
    GroupAttributed(identity.others, p);
    if paths == [] {
      assert forall id :: id in m && m[id] != EMPTY ==> m[id] in Paths(m);
      assert p.1 in identity.ids <==> p.1 in Elements(identity.ids);
    } else {
      ArrangedFirst(m, p);
      ArrangedOthers(m, p);
    }
  }

  lemma ArrangedFirst(m: Origins, p: Pair)
    requires PathsInOrder(Paths(m)) != []
    ensures var first := PathsInOrder(Paths(m))[0];
            p in Attributions(Arrange(m).path, Arrange(m).ids) <==> p.0 == first && p.1 in m &&
                                                                    (m[p.1] == first || m[p.1] == EMPTY)
  {
    var first := PathsInOrder(Paths(m))[0];
    Attributed(first, Arrange(m).ids, p);
    assert p.1 in Arrange(m).ids <==> p.1 in Elements(Arrange(m).ids);
  }

  lemma ArrangedOthers(m: Origins, p: Pair)
    requires PathsInOrder(Paths(m)) != []
    ensures var first := PathsInOrder(Paths(m))[0];
            first in Paths(m) && first != EMPTY &&
            (p in GroupAttributions(Arrange(m).others) <==> p.1 in m && p.0 == m[p.1] && m[p.1] != EMPTY &&
                                                            m[p.1] != first)
  {
    var paths := PathsInOrder(Paths(m));
    var others := Arrange(m).others;
    GroupAttributed(others, p);
    assert forall k :: 0 <= k < |paths| ==> paths[k] in Elements(paths);
    assert forall i :: 0 <= i < |others| ==> (p.1 in others[i].ids <==> p.1 in Elements(others[i].ids));
    assert forall i :: 0 <= i < |others| ==> others[i].path == paths[i + 1];
    if p.1 in m && p.0 == m[p.1] && m[p.1] != EMPTY && m[p.1] != paths[0] {
      assert m[p.1] in Elements(paths);
      var k :| 0 <= k < |paths| && paths[k] == m[p.1];
      assert others[k - 1].path == p.0 && p.1 in others[k - 1].ids;
    }
  }

  /** Every identifier gathered is in the arranged identity. */
  lemma ArrangingKeepsAll(pairs: seq<Pair>, p: Pair)
    requires p in pairs && p.1 != NO_ID
    ensures exists path :: (path, p.1) in Pairs(Arrange(Gather(pairs)))
  {
    GatherKeeps(pairs);
    ArrangedPairs(Gather(pairs), (Home(Gather(pairs), p.1), p.1));
  }

  /** Every attribution in it was gathered, or was gathered without a path. */
  lemma ArrangingAddsNothing(pairs: seq<Pair>, p: Pair)
    requires p in Pairs(Arrange(Gather(pairs)))
    ensures p.1 != NO_ID && (p in pairs || (EMPTY, p.1) in pairs)
  {
    GatherKeeps(pairs);
    ArrangedPairs(Gather(pairs), p);
  }

  // --- Recovering again ---

  /** Pairs that give each identifier one path are gathered as they are, in any order. */
  lemma GatherFunctional(pairs: seq<Pair>, m: Origins)
    requires NO_ID !in m && forall p: Pair :: p in pairs <==> p.1 in m && p.0 == m[p.1]
    ensures Gather(pairs) == m
  {
    GatherKeeps(pairs);
    forall id | id in m ensures id in Gather(pairs) { assert (m[id], id) in pairs; }
  }

  ghost function Settled(m: Origins): Origins { map id | id in m :: Home(m, id) }

  lemma SettledPaths(m: Origins)
    ensures Paths(Settled(m)) == Paths(m)
  {
    var paths := PathsInOrder(Paths(m));
    assert forall k :: 0 <= k < |paths| ==> paths[k] in Elements(paths);
    forall p | p in Paths(m) ensures p in Paths(Settled(m)) {
      var id :| id in m && m[id] != EMPTY && m[id] == p;
      assert Settled(m)[id] == p;
    }
  }

  lemma SettledIds(m: Origins, path: Path)
    requires PathsInOrder(Paths(m)) != []
    ensures var first := PathsInOrder(Paths(m))[0];
            IdsAt(Settled(m), path) == if path == EMPTY then {}
                                       else if path == first then IdsAt(m, first) + IdsAt(m, EMPTY)
                                       else IdsAt(m, path)
  {
    var paths := PathsInOrder(Paths(m));
    assert paths[0] in Elements(paths);
  }

  lemma FirstSettled(m: Origins)
    requires PathsInOrder(Paths(m)) != []
    ensures var first := PathsInOrder(Paths(m))[0];
            IdsAt(Settled(m), first) + IdsAt(Settled(m), EMPTY) == IdsAt(m, first) + IdsAt(m, EMPTY)
  {
    var paths := PathsInOrder(Paths(m));
    assert paths[0] in Elements(paths);
    SettledIds(m, paths[0]);
    SettledIds(m, EMPTY);
  }

  lemma OthersSettled(m: Origins)
    requires PathsInOrder(Paths(m)) != []
    ensures Groups(Settled(m), PathsInOrder(Paths(m))[1..]) == Groups(m, PathsInOrder(Paths(m))[1..])
  {
    var paths := PathsInOrder(Paths(m));
    assert forall k :: 0 <= k < |paths| ==> paths[k] in Elements(paths);
    forall i | 0 <= i < |paths[1..]| ensures IdsAt(Settled(m), paths[1..][i]) == IdsAt(m, paths[1..][i]) {
      SettledIds(m, paths[i + 1]);
    }
  }

  lemma ArrangeSettled(m: Origins)
    ensures Arrange(Settled(m)) == Arrange(m)
  {
    SettledPaths(m);
    if PathsInOrder(Paths(m)) == [] {
      assert Settled(m) == m;
    } else {
      FirstSettled(m);
      OthersSettled(m);
    }
  }

  /** Gathering an arranged identity's own pairs, in any order and any number of times, arranges it again. */
  lemma ArrangementIsFixed(pairs: seq<Pair>, again: seq<Pair>)
    requires forall p: Pair :: p in again <==> p in Pairs(Arrange(Gather(pairs)))
    ensures Arrange(Gather(again)) == Arrange(Gather(pairs))
  {
    var m := Gather(pairs);
    GatherKeeps(pairs);
    forall p: Pair ensures p in again <==> p.1 in Settled(m) && p.0 == Settled(m)[p.1] {
      ArrangedPairs(m, p);
    }
    GatherFunctional(again, Settled(m));
    ArrangeSettled(m);
  }

  // --- The recovery itself ---

  /** Identifiers by path, those without a path, and all seen so far. */
  class Collector {
    var groups: map<Path, seq<Id>>
    var pathless: seq<Id>
    var seen: set<Id>
    ghost var origins: Origins

    constructor ()
      ensures Valid() && origins == map[]
    {
      groups, pathless, seen, origins := map[], [], {}, map[];
    }

    ghost predicate Valid() reads this {
      && seen == origins.Keys && NO_ID !in seen && groups.Keys == Paths(origins)
      && (forall p :: p in groups ==> Distinct(groups[p]) && Elements(groups[p]) == IdsAt(origins, p))
      && Distinct(pathless) && Elements(pathless) == IdsAt(origins, EMPTY)
    }

    /** Keep an identifier under the first path it comes with. */
    method Keep(path: Path, id: Id)
      requires Valid()
      modifies this
      ensures Valid() && origins == Add(old(origins), (path, id))
    {
      if id == NO_ID || id in seen { return; }
      PathsGrow(origins, id, path);
      if path == EMPTY {
        KeepsDistinct(pathless, id, IdsAt(origins, EMPTY));
        pathless := pathless + [id];
      } else {
        var ids := if path in groups then groups[path] else [];
        if path !in groups { NoIdsWithoutPath(origins, path); }
        KeepsDistinct(ids, id, IdsAt(origins, path));
        groups := groups[path := ids + [id]];
      }
      seen := seen + {id};
      origins := origins[id := path];
    }
  }

  lemma KeepsDistinct(s: seq<Id>, x: Id, e: set<Id>)
    requires Distinct(s) && Elements(s) == e && x !in e
    ensures Distinct(s + [x]) && Elements(s + [x]) == e + {x}
  {
    assert forall k :: 0 <= k < |s| ==> s[k] in Elements(s);
  }

  /** What one more identifier does to the paths and to each path's identifiers. */
  lemma PathsGrow(m: Origins, id: Id, path: Path)
    requires id !in m
    ensures Paths(m[id := path]) == if path == EMPTY then Paths(m) else Paths(m) + {path}
    ensures forall p :: IdsAt(m[id := path], p) == if p == path then IdsAt(m, p) + {id} else IdsAt(m, p)
  {
    var m' := m[id := path];
    forall p | p in Paths(m) ensures p in Paths(m') {
      var k :| k in m && m[k] != EMPTY && m[k] == p;
      assert m'[k] == p;
    }
    assert m'[id] == path;
    assert forall k :: k in m ==> m'[k] == m[k];
  }

  lemma NoIdsWithoutPath(m: Origins, path: Path)
    requires path !in Paths(m) && path != EMPTY
    ensures IdsAt(m, path) == {}
  {
    assert forall id :: id in m && m[id] != EMPTY ==> m[id] in Paths(m);
  }

  method ListPaths(paths: set<Path>) returns (r: seq<Path>)
    ensures r == PathsInOrder(paths)
  {
    PathOrder();
    r := List(paths, PathLess);
  }

  method SortIds(ids: seq<Id>) returns (r: seq<Id>)
    requires Distinct(ids)
    ensures r == IdsInOrder(Elements(ids))
  {
    IdOrder();
    SortedIsOrdered(ids, IdLess);
    r := Sorted(ids, IdLess);
  }

  /** A filter as the engine returns it: the entry it is tagged with, its attribution path and its identifier. */
  datatype Filter = Filter(tag: string, path: Path, id: Id)

  /** The pairs the filters tagged with the entry hold. */
  function Held(filters: seq<Filter>, entry: string): seq<Pair> {
    if filters == [] then []
    else
      var last := filters[|filters| - 1];
      Held(filters[..|filters| - 1], entry) + if last.tag == entry then [(last.path, last.id)] else []
  }

  lemma {:induction false} GatherMore(first: seq<Pair>, p: Pair)
    ensures Gather(first + [p]) == Add(Gather(first), p)
  {
    assert (first + [p])[..|first|] == first;
  }

  lemma NextPair(before: seq<Pair>, pairs: seq<Pair>, i: nat)
    requires i < |pairs|
    ensures Gather(before + pairs[..i + 1]) == Add(Gather(before + pairs[..i]), pairs[i])
  {
    GatherMore(before + pairs[..i], pairs[i]);
    assert before + pairs[..i] + [pairs[i]] == before + pairs[..i + 1];
  }

  /** Keep a group of identifiers under its path. */
  method KeepAll(c: Collector, path: Path, ids: seq<Id>, ghost before: seq<Pair>)
    requires c.Valid() && c.origins == Gather(before)
    modifies c
    ensures c.Valid() && c.origins == Gather(before + Attributions(path, ids))
  {
    ghost var pairs := Attributions(path, ids);
    assert before + pairs[..0] == before;
    for i := 0 to |ids|
      invariant c.Valid() && c.origins == Gather(before + pairs[..i])
    {
      NextPair(before, pairs, i);
      c.Keep(path, ids[i]);
    }
    assert pairs[..|ids|] == pairs;
  }

  lemma {:induction false} GroupAttributionsAppend(groups: seq<Group>, g: Group)
    ensures GroupAttributions(groups + [g]) == GroupAttributions(groups) + Attributions(g.path, g.ids)
    decreases |groups|
  {
    if groups == [] {
      assert [g][1..] == [];
    } else {
      assert (groups + [g])[1..] == groups[1..] + [g];
      GroupAttributionsAppend(groups[1..], g);
    }
  }

  lemma NextGroup(before: seq<Pair>, groups: seq<Group>, i: nat)
    requires i < |groups|
    ensures before + GroupAttributions(groups[..i]) + Attributions(groups[i].path, groups[i].ids) ==
              before + GroupAttributions(groups[..i + 1])
  {
    GroupAttributionsAppend(groups[..i], groups[i]);
    assert groups[..i] + [groups[i]] == groups[..i + 1];
  }

  /** Keep the groups of further paths. */
  method KeepGroups(c: Collector, groups: seq<Group>, ghost before: seq<Pair>)
    requires c.Valid() && c.origins == Gather(before)
    modifies c
    ensures c.Valid() && c.origins == Gather(before + GroupAttributions(groups))
  {
    assert groups[..0] == [] && before + [] == before;
    for i := 0 to |groups|
      invariant c.Valid() && c.origins == Gather(before + GroupAttributions(groups[..i]))
    {
      NextGroup(before, groups, i);
      KeepAll(c, groups[i].path, groups[i].ids, before + GroupAttributions(groups[..i]));
    }
    assert groups[..|groups|] == groups;
  }

  lemma PairsAppend(before: seq<Pair>, identity: Identity)
    ensures before + Attributions(identity.path, identity.ids) + GroupAttributions(identity.others) ==
              before + Pairs(identity)
  {
  }

  /** Keep everything a record lists. */
  method KeepRecord(c: Collector, identity: Identity, ghost before: seq<Pair>)
    requires c.Valid() && c.origins == Gather(before)
    modifies c
    ensures c.Valid() && c.origins == Gather(before + Pairs(identity))
  {
    KeepAll(c, identity.path, identity.ids, before);
    KeepGroups(c, identity.others, before + Attributions(identity.path, identity.ids));
    PairsAppend(before, identity);
  }

  /** The groups of some paths, sorted. */
  method AssembleGroups(c: Collector, paths: seq<Path>) returns (groups: seq<Group>)
    requires c.Valid() && forall k :: 0 <= k < |paths| ==> paths[k] in c.groups
    ensures groups == Groups(c.origins, paths)
  {
    groups := [];
    for i := 0 to |paths|
      invariant |groups| == i && forall k :: 0 <= k < i ==>
                  groups[k] == Group(paths[k], IdsInOrder(IdsAt(c.origins, paths[k])))
    {
      var ids := SortIds(c.groups[paths[i]]);
      groups := groups + [Group(paths[i], ids)];
    }
  }

  /** Arrange what was collected: paths in order, identifiers sorted, those without a path under the first. */
  method Assemble(c: Collector) returns (identity: Identity)
    requires c.Valid()
    ensures identity == Arrange(c.origins)
  {
    var paths := ListPaths(c.groups.Keys);
    assert forall k :: 0 <= k < |paths| ==> paths[k] in Elements(paths);
    if paths == [] {
      var loose := SortIds(c.pathless);
      return Identity(EMPTY, loose, []);
    }
    var others := AssembleGroups(c, paths[1..]);
    Joined(c.groups[paths[0]], c.pathless, IdsAt(c.origins, paths[0]), IdsAt(c.origins, EMPTY));
    var ids := SortIds(c.groups[paths[0]] + c.pathless);
    identity := Identity(paths[0], ids, others);
  }

  lemma Joined(s: seq<Id>, r: seq<Id>, e: set<Id>, f: set<Id>)
    requires Distinct(s) && Distinct(r) && Elements(s) == e && Elements(r) == f && e !! f
    ensures Distinct(s + r) && Elements(s + r) == e + f
  {
    assert forall k :: 0 <= k < |s| ==> s[k] in Elements(s);
    assert forall k :: 0 <= k < |r| ==> r[k] in Elements(r);
  }

  function Recorded(recorded: Option<Identity>): seq<Pair> {
    if recorded.None? then [] else Pairs(recorded.value)
  }

  /** The identity recovered for an entry, if there is any identifier. */
  ghost function Identified(filters: seq<Filter>, entry: string, recorded: Option<Identity>): Option<Identity> {
    var m := Gather(Held(filters, entry) + Recorded(recorded));
    if m == map[] then None else Some(Arrange(m))
  }

  /** Identify an entry that does not resolve, from the filters and its record. */
  method Identify(filters: seq<Filter>, entry: string, recorded: Option<Identity>) returns (identity: Option<Identity>)
    ensures identity == Identified(filters, entry, recorded)
  {
    var c := new Collector();
    for i := 0 to |filters|
      invariant c.Valid() && fresh(c) && c.origins == Gather(Held(filters[..i], entry))
    {
      assert filters[..i + 1][..i] == filters[..i];
      var f := filters[i];
      if f.tag == entry {
        GatherMore(Held(filters[..i], entry), (f.path, f.id));
        c.Keep(f.path, f.id);
      } else {
        assert Held(filters[..i], entry) + [] == Held(filters[..i], entry);
      }
    }
    assert filters[..|filters|] == filters;
    ghost var held := Held(filters, entry);
    assert held + [] == held;
    if recorded.Some? { KeepRecord(c, recorded.value, held); }
    if c.seen == {} {
      assert c.origins.Keys == {};
      return None;
    }
    var found := Assemble(c);
    identity := Some(found);
  }

  // --- Filters and record of a recovered identity ---

  /** What a filter is installed with: the entry and the path as one text, and the identifier. */
  datatype Blob = Blob(data: string, id: Id)

  function GroupBlobs(entry: string, path: Path, ids: seq<Id>): (r: seq<Blob>)
    ensures |r| == |ids| && forall i :: 0 <= i < |r| ==> r[i] == Blob(entry + "\t" + path, ids[i])
  {
    seq(|ids|, i requires 0 <= i < |ids| => Blob(entry + "\t" + path, ids[i]))
  }

  function OtherBlobs(entry: string, others: seq<Group>): seq<Blob> {
    if others == [] then [] else GroupBlobs(entry, others[0].path, others[0].ids) + OtherBlobs(entry, others[1..])
  }

  /** The filters an identity produces, one for each identifier of each path. */
  function Blobs(entry: string, identity: Identity): seq<Blob> {
    GroupBlobs(entry, identity.path, identity.ids) + OtherBlobs(entry, identity.others)
  }

  lemma {:induction false} OtherBlobsAppend(entry: string, others: seq<Group>, g: Group)
    ensures OtherBlobs(entry, others + [g]) == OtherBlobs(entry, others) + GroupBlobs(entry, g.path, g.ids)
    decreases |others|
  {
    if others == [] {
      assert [g][1..] == [];
    } else {
      assert (others + [g])[0] == others[0] && (others + [g])[1..] == others[1..] + [g];
      OtherBlobsAppend(entry, others[1..], g);
    }
  }

  method ProduceGroup(entry: string, path: Path, ids: seq<Id>) returns (blobs: seq<Blob>)
    ensures blobs == GroupBlobs(entry, path, ids)
  {
    var tag := entry + "\t" + path;
    blobs := [];
    for i := 0 to |ids|
      invariant |blobs| == i && forall k :: 0 <= k < i ==> blobs[k] == Blob(tag, ids[k])
    {
      blobs := blobs + [Blob(tag, ids[i])];
    }
  }

  /** Produce the filters of an identity, path by path. */
  method Produce(entry: string, identity: Identity) returns (blobs: seq<Blob>)
    ensures blobs == Blobs(entry, identity)
  {
    var first := ProduceGroup(entry, identity.path, identity.ids);
    var rest: seq<Blob> := [];
    for i := 0 to |identity.others|
      invariant rest == OtherBlobs(entry, identity.others[..i])
    {
      var g := identity.others[i];
      OtherBlobsAppend(entry, identity.others[..i], g);
      assert identity.others[..i] + [g] == identity.others[..i + 1];
      var more := ProduceGroup(entry, g.path, g.ids);
      rest := rest + more;
    }
    assert identity.others[..|identity.others|] == identity.others;
    blobs := first + rest;
  }

  /** A filter read back from the engine: the tag ends at the first tab, and without one there is no path. */
  function ReadBack(b: Blob): Filter {
    var k := Find(b.data, '\t');
    Filter(b.data[..k], if k == |b.data| then EMPTY else b.data[k + 1..], b.id)
  }

  function ReadAll(blobs: seq<Blob>): (r: seq<Filter>)
    ensures |r| == |blobs| && forall i :: 0 <= i < |r| ==> r[i] == ReadBack(blobs[i])
  {
    seq(|blobs|, i requires 0 <= i < |blobs| => ReadBack(blobs[i]))
  }

  lemma ReadsBack(entry: string, path: Path, id: Id)
    requires '\t' !in entry
    ensures ReadBack(Blob(entry + "\t" + path, id)) == Filter(entry, path, id)
  {
    SplitsAt(entry, path, '\t');
  }

  lemma GroupReadsBack(entry: string, path: Path, ids: seq<Id>, f: Filter)
    requires '\t' !in entry
    ensures f in ReadAll(GroupBlobs(entry, path, ids)) <==> f.tag == entry && (f.path, f.id) in Attributions(path, ids)
  {
    var blobs := GroupBlobs(entry, path, ids);
    forall i | 0 <= i < |ids| ensures ReadBack(blobs[i]) == Filter(entry, path, ids[i]) {
      ReadsBack(entry, path, ids[i]);
    }
    if f.tag == entry && (f.path, f.id) in Attributions(path, ids) {
      var i :| 0 <= i < |ids| && Attributions(path, ids)[i] == (f.path, f.id);
      assert ReadAll(blobs)[i] == f;
    }
  }

  lemma ReadAllAppends(a: seq<Blob>, b: seq<Blob>)
    ensures ReadAll(a + b) == ReadAll(a) + ReadAll(b)
  {
  }

  lemma {:induction false} OthersReadBack(entry: string, others: seq<Group>, f: Filter)
    requires '\t' !in entry
    ensures f in ReadAll(OtherBlobs(entry, others)) <==> f.tag == entry && (f.path, f.id) in GroupAttributions(others)
    decreases |others|
  {
    if others != [] {
      GroupReadsBack(entry, others[0].path, others[0].ids, f);
      OthersReadBack(entry, others[1..], f);
      ReadAllAppends(GroupBlobs(entry, others[0].path, others[0].ids), OtherBlobs(entry, others[1..]));
    }
  }

  /** The filters an identity produces, read back, hold exactly its attributions. */
  lemma FiltersHoldIdentity(entry: string, identity: Identity, f: Filter)
    requires '\t' !in entry
    ensures f in ReadAll(Blobs(entry, identity)) <==> f.tag == entry && (f.path, f.id) in Pairs(identity)
  {
    GroupReadsBack(entry, identity.path, identity.ids, f);
    OthersReadBack(entry, identity.others, f);
    ReadAllAppends(GroupBlobs(entry, identity.path, identity.ids), OtherBlobs(entry, identity.others));
  }

  lemma {:induction false} HeldAre(filters: seq<Filter>, entry: string, p: Pair)
    ensures p in Held(filters, entry) <==> Filter(entry, p.0, p.1) in filters
    decreases |filters|
  {
    if filters != [] {
      var n := |filters| - 1;
      HeldAre(filters[..n], entry, p);
      assert filters == filters[..n] + [filters[n]];
    }
  }

  /** A filter of the entry or its record attributes this identifier to this path. */
  predicate Attributes(filters: seq<Filter>, entry: string, recorded: Option<Identity>, p: Pair) {
    Filter(entry, p.0, p.1) in filters || (recorded.Some? && p in Pairs(recorded.value))
  }

  lemma AttributesAre(filters: seq<Filter>, entry: string, recorded: Option<Identity>, p: Pair)
    ensures p in Held(filters, entry) + Recorded(recorded) <==> Attributes(filters, entry, recorded, p)
  {
    HeldAre(filters, entry, p);
  }

  /** No identifier is lost: each one the entry's filters or its record held is in the recovered identity. */
  lemma NothingIsLost(filters: seq<Filter>, entry: string, recorded: Option<Identity>, p: Pair)
    requires Attributes(filters, entry, recorded, p) && p.1 != NO_ID
    ensures Identified(filters, entry, recorded).Some?
    ensures exists path :: (path, p.1) in Pairs(Identified(filters, entry, recorded).value)
  {
    AttributesAre(filters, entry, recorded, p);
    GatherKeeps(Held(filters, entry) + Recorded(recorded));
    ArrangingKeepsAll(Held(filters, entry) + Recorded(recorded), p);
  }

  /** And nothing is invented: each attribution in it was held, or its identifier was held without a path. */
  lemma NothingIsInvented(filters: seq<Filter>, entry: string, recorded: Option<Identity>, p: Pair)
    requires Identified(filters, entry, recorded).Some? && p in Pairs(Identified(filters, entry, recorded).value)
    ensures p.1 != NO_ID
    ensures Attributes(filters, entry, recorded, p) || Attributes(filters, entry, recorded, (EMPTY, p.1))
  {
    ArrangingAddsNothing(Held(filters, entry) + Recorded(recorded), p);
    AttributesAre(filters, entry, recorded, p);
    AttributesAre(filters, entry, recorded, (EMPTY, p.1));
  }

  /** Recovery is a fixed point: from the filters a recovered identity produces, read back in any order among filters
      of other entries, with its record or without one, it recovers the same identity. */
  lemma RecoveryIsFixed(entry: string, filters: seq<Filter>, recorded: Option<Identity>, again: seq<Filter>,
                        record: Option<Identity>)
    requires '\t' !in entry && Identified(filters, entry, recorded).Some?
    requires forall f: Filter :: f.tag == entry ==>
               (f in again <==> f in ReadAll(Blobs(entry, Identified(filters, entry, recorded).value)))
    requires record == None || record == Identified(filters, entry, recorded)
    ensures Identified(again, entry, record) == Identified(filters, entry, recorded)
  {
    var pairs := Held(filters, entry) + Recorded(recorded);
    var identity := Identified(filters, entry, recorded).value;
    var second := Held(again, entry) + Recorded(record);
    forall p: Pair ensures p in second <==> p in Pairs(identity) {
      HeldAre(again, entry, p);
      FiltersHoldIdentity(entry, identity, Filter(entry, p.0, p.1));
    }
    ArrangementIsFixed(pairs, second);
    StillSomething(pairs, second);
  }

  lemma StillSomething(pairs: seq<Pair>, second: seq<Pair>)
    requires Gather(pairs) != map[] && forall p: Pair :: p in second <==> p in Pairs(Arrange(Gather(pairs)))
    ensures Gather(second) != map[]
  {
    var m := Gather(pairs);
    var id :| id in m;
    GatherKeeps(pairs);
    GatherKeeps(second);
    ArrangedPairs(m, (Home(m, id), id));
    assert id in Gather(second);
  }

  /** The record of an entry, as the text gives it. */
  function RecordIn(text: string, entry: string): Option<Identity> {
    var parsed := Parsed(text);
    if entry in parsed then Some(parsed[entry]) else None
  }

  lemma {:induction false} ContentsHold(book: seq<Item>, k: nat)
    requires Separate(book) && k < |book| && book[k].identity.ids != []
    ensures book[k].entry in Contents(book) && Contents(book)[book[k].entry] == book[k].identity
    decreases |book|
  {
    if k > 0 {
      FirstApart(book);
      assert book[1..][k - 1] == book[k];
      ContentsHold(book[1..], k - 1);
    }
  }

  /** The same through the text of the record: printing a record with the recovered identity, parsing it and
      recovering from it and from the filters gives the identity again. */
  lemma RecoveryIsFixedThroughText(entry: string, filters: seq<Filter>, recorded: Option<Identity>, again: seq<Filter>,
                                   book: seq<Item>, k: nat)
    requires '\t' !in entry && Identified(filters, entry, recorded).Some?
    requires forall f: Filter :: f.tag == entry ==>
               (f in again <==> f in ReadAll(Blobs(entry, Identified(filters, entry, recorded).value)))
    requires GoodBook(book) && k < |book| && book[k] == Item(entry, Identified(filters, entry, recorded).value)
    ensures Identified(again, entry, RecordIn(Serialized(book), entry)) == Identified(filters, entry, recorded)
  {
    var identity := Identified(filters, entry, recorded).value;
    ParseUndoesSerialize(book);
    RecoveredHasIds(Held(filters, entry) + Recorded(recorded));
    ContentsHold(book, k);
    RecoveryIsFixed(entry, filters, recorded, again, RecordIn(Serialized(book), entry));
  }

  lemma RecoveredHasIds(pairs: seq<Pair>)
    requires Gather(pairs) != map[]
    ensures Arrange(Gather(pairs)).ids != []
  {
    var m := Gather(pairs);
    var paths := PathsInOrder(Paths(m));
    var id :| id in m;
    if paths == [] {
      assert forall k :: k in m && m[k] != EMPTY ==> m[k] in Paths(m);
      assert id in IdsAt(m, EMPTY);
    } else {
      assert paths[0] in Elements(paths);
      var first :| first in m && m[first] != EMPTY && m[first] == paths[0];
      assert first in IdsAt(m, paths[0]) + IdsAt(m, EMPTY);
    }
    assert Elements(Arrange(m).ids) != {};
  }
}
