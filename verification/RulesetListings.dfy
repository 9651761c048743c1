/** Reusing ruleset listings: a listing is run again only if the kernel's ruleset may have changed.

    The kernel's ruleset changes in two ways: a transaction commits and advances the generation, or the socket
    that owns a table closes and the table disappears without advancing it. A tool prints the ruleset as it is at
    one instant of its run; counters and dynamic set contents are not part of a listing here. Reading the
    generation may fail. */
module RulesetListings {
  import opened Options

  datatype Tool = Nft | IptablesSave | Ip6tablesSave

  datatype Table = Table(content: nat, ownerBound: bool)

  datatype World = World(generation: nat, tables: map<nat, Table>)

  datatype Listing = Listing(tool: Tool, tables: map<nat, Table>)

  function Print(tool: Tool, w: World): Listing { Listing(tool, w.tables) }

  predicate OwnerBound(tables: map<nat, Table>) { exists t :: t in tables && tables[t].ownerBound }

  // --- The kernel ---

  predicate Commits(w: World, w': World) { w.generation < w'.generation }

  predicate Closes(w: World, w': World, t: nat) {
    t in w.tables && w.tables[t].ownerBound && w' == w.(tables := w.tables - {t})
  }

  ghost predicate Step(w: World, w': World) { w' == w || Commits(w, w') || exists t :: Closes(w, w', t) }

  /** The ruleset at every instant. */
  ghost predicate History(h: seq<World>) { forall i :: 0 <= i < |h| - 1 ==> Step(h[i], h[i + 1]) }

  /** A later ruleset of the same generation lacks at most owner-bound tables. */
  predicate Later(w: World, w': World) {
    || w.generation < w'.generation
    || (&& w.generation == w'.generation
        && (forall t :: t in w'.tables ==> t in w.tables && w'.tables[t] == w.tables[t])
        && (forall t :: t in w.tables && t !in w'.tables ==> w.tables[t].ownerBound))
  }

  lemma {:induction false} HistoryIsLater(h: seq<World>, i: nat, j: nat)
    requires History(h) && i <= j < |h|
    ensures Later(h[i], h[j])
    decreases j
  {
    if i < j {
      HistoryIsLater(h, i, j - 1);
      assert Step(h[j - 1], h[j]);
    }
  }

  /** Without owner-bound tables, an equal generation means an equal ruleset. */
  lemma OwnerFreeIsFixed(w: World, w': World)
    requires Later(w, w') && w.generation == w'.generation && !OwnerBound(w.tables)
    ensures w'.tables == w.tables
  {
  }

  // --- The cache ---

  /** If generation `g` is still current, nothing owner-bound exists. */
  predicate FreeAt(g: nat, w: World) { g <= w.generation && (g == w.generation ==> !OwnerBound(w.tables)) }

  /** If the entry's generation is still current, the entry is what the tool prints. */
  predicate Fresh(tool: Tool, entry: (nat, Listing), w: World) {
    FreeAt(entry.0, w) && (entry.0 == w.generation ==> entry.1 == Print(tool, w))
  }

  datatype Cache = Cache(entries: map<Tool, (nat, Listing)>, ownerFree: Option<nat>)

  ghost predicate Sound(c: Cache, w: World) {
    && (forall tool :: tool in c.entries ==> Fresh(tool, c.entries[tool], w))
    && (c.ownerFree.Some? ==> FreeAt(c.ownerFree.value, w))
  }

  lemma SoundLater(c: Cache, w: World, w': World)
    requires Sound(c, w) && Later(w, w')
    ensures Sound(c, w')
  {
    forall tool | tool in c.entries ensures Fresh(tool, c.entries[tool], w') {
      if c.entries[tool].0 == w'.generation { OwnerFreeIsFixed(w, w'); }
    }
    if c.ownerFree == Some(w'.generation) { OwnerFreeIsFixed(w, w'); }
  }

  /** When during the kernel's history a call reads the generation, runs the tool and reads the generation again,
      and which of the two reads succeed. */
  datatype Call = Call(tool: Tool, read: nat, run: nat, reread: nat, readable: bool, rereadable: bool)

  predicate InOrder(c: Call, from: nat, end: nat) { from <= c.read <= c.run <= c.reread < end }

  predicate PrintedDuring(h: seq<World>, c: Call, output: Listing) {
    exists t :: c.read <= t <= c.reread && t < |h| && output == Print(c.tool, h[t])
  }

  class Listings {
    var cache: Cache

    constructor ()
      ensures cache == Cache(map[], None)
    {
      cache := Cache(map[], None);
    }

    /** Answer from the cache, or run the tool and keep its listing if that is safe. The answer is what the tool
        would print at some instant of the call. */
    method List(h: seq<World>, c: Call, ghost from: nat) returns (output: Listing, ran: bool)
      requires History(h) && InOrder(c, from, |h|) && Sound(cache, h[from])
      modifies this
      ensures Sound(cache, h[c.reread])
      ensures PrintedDuring(h, c, output)
      ensures !ran <==> c.readable && old(cache).ownerFree == Some(h[c.read].generation) &&
                        c.tool in old(cache).entries && old(cache).entries[c.tool].0 == h[c.read].generation
      ensures !ran ==> cache == old(cache)
    {
      HistoryIsLater(h, from, c.read);
      HistoryIsLater(h, c.read, c.run);
      HistoryIsLater(h, c.run, c.reread);
      SoundLater(cache, h[from], h[c.read]);
      SoundLater(cache, h[c.read], h[c.run]);
      SoundLater(cache, h[c.run], h[c.reread]);
      if !c.readable {
        cache := Cache(map[], None);
        return Print(c.tool, h[c.run]), true;
      }
      var before := h[c.read].generation;
      if c.tool in cache.entries && cache.entries[c.tool].0 == before && cache.ownerFree == Some(before) {
        return cache.entries[c.tool].1, false;
      }
      output, ran := Print(c.tool, h[c.run]), true;
      var stable := c.rereadable && h[c.reread].generation == before;
      Keep(h[c.run], h[c.reread], c.tool, output, before, stable);
    }

    /** Every run of calls, one after another: each answer is what its tool would print at some instant of its call. */
    method Run(h: seq<World>, calls: seq<Call>) returns (outputs: seq<Listing>)
      requires History(h) && h != [] && cache == Cache(map[], None)
      requires forall n :: 0 <= n < |calls| ==> InOrder(calls[n], if n == 0 then 0 else calls[n - 1].reread, |h|)
      modifies this
      ensures |outputs| == |calls|
      ensures forall n :: 0 <= n < |calls| ==> PrintedDuring(h, calls[n], outputs[n])
    {
      outputs := [];
      ghost var at := 0;
      for n := 0 to |calls|
        invariant |outputs| == n && at < |h| && at == (if n == 0 then 0 else calls[n - 1].reread) && Sound(cache, h[at])
        invariant forall m :: 0 <= m < n ==> PrintedDuring(h, calls[m], outputs[m])
      {
        var output, _ := List(h, calls[n], at);
        at := calls[n].reread;
        outputs := outputs + [output];
      }
    }

    /** Decide what to keep of a listing. */
    method Keep(ghost ran: World, ghost now: World, tool: Tool, output: Listing, before: nat, stable: bool)
      requires Sound(cache, ran) && Sound(cache, now) && Later(ran, now) && output == Print(tool, ran)
      requires before <= ran.generation
      requires stable ==> now.generation == before
      modifies this
      ensures Sound(cache, now)
    {
      var ownerFree := cache.ownerFree;
      if tool == Nft { ownerFree := if stable && !OwnerBound(output.tables) then Some(before) else None; }
      if stable && ownerFree == Some(before) {
        KeepIsFresh(cache, ran, now, tool, before);
        cache := Cache(cache.entries[tool := (before, output)], ownerFree);
      } else {
        cache := Cache(cache.entries - {tool}, ownerFree);
      }
    }
  }

  lemma KeepIsFresh(c: Cache, ran: World, now: World, tool: Tool, before: nat)
    requires Sound(c, ran) && Later(ran, now) && ran.generation >= before == now.generation
    requires (tool == Nft && !OwnerBound(ran.tables)) || (tool != Nft && c.ownerFree == Some(before))
    ensures FreeAt(before, now) && Fresh(tool, (before, Print(tool, ran)), now)
  {
    OwnerFreeIsFixed(ran, now);
  }
}
