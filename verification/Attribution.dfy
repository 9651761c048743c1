/** The hint table that attributes a DNS lookup to the program that asked for it.

    `Store` is the table's value and the functions below are its operations; class
    `Hints` performs the same operations in place. Every operation takes the clock
    reading it uses, since the source reads a monotone clock under the table's mutex.
    Times are milliseconds. */
module Attribution {
  import opened Options
  import opened QueryNames

  /** A normalised query name and record type. */
  datatype Key = Key(name: string, recordType: nat)

  /** A name as its program wrote it, and the record type. */
  datatype Question = Question(name: string, recordType: nat)

  function MakeKey(q: Question): Key { Key(Normalised(q.name), q.recordType) }

  datatype Decision = Pending | Direct | Tunnel

  datatype Route = ToTunnel | ToDirect

  /** What resolving the querying process's image gave. */
  datatype Evidence = Selected | Unselected | Unidentified

  datatype Entry = Entry(
    tunnel: bool, selected: bool, selectedAnswered: bool, generation: nat, direct: bool,
    unknownUntil: nat, answered: bool, decision: Decision, expires: nat, answeredAt: nat,
    selectedAnsweredAt: nat)

  datatype Store = Store(
    hints: map<Key, Entry>, nextExpiry: nat, overloadedUntil: nat, directBlockedUntil: nat,
    generations: nat)

  const MAX_HINTS: nat := 4096
  const MAX_NAME: nat := 253
  const LIFETIME: nat := 10000
  const SCAN_INTERVAL: nat := 1000
  const BLANK := Entry(false, false, false, 0, false, 0, false, Pending, 0, 0, 0)
  const EMPTY := Store(map[], 0, 0, 0, 0)

  function Max(a: nat, b: nat): nat { if a < b then b else a }

  /** At most one scan per interval drops the entries whose lifetime is over. */
  function Expire(s: Store, now: nat): Store {
    if now < s.nextExpiry then s
    else s.(nextExpiry := now + SCAN_INTERVAL,
            hints := map k | k in s.hints && now < s.hints[k].expires :: s.hints[k])
  }

  predicate RecentSelected(e: Entry, now: nat, reuse: nat) {
    e.selectedAnswered && now < e.selectedAnsweredAt + reuse
  }

  /** Ends an answered entry's reusable route and keeps what must outlive it. */
  function Retire(e: Entry, now: nat, reuse: nat): Entry {
    var unclaimed := e.tunnel && e.decision != Tunnel;
    var recent := RecentSelected(e, now, reuse);
    BLANK.(tunnel := unclaimed || recent, selected := unclaimed && e.selected, selectedAnswered := recent,
           selectedAnsweredAt := e.selectedAnsweredAt, unknownUntil := e.unknownUntil,
           generation := e.generation, expires := e.expires)
  }

  function View(s: Store, key: Key): Option<Entry> {
    if key in s.hints then Some(s.hints[key]) else None
  }

  function Put(s: Store, key: Key, e: Option<Entry>): Store {
    s.(hints := match e case Some(entry) => s.hints[key := entry] case None => s.hints - {key})
  }

  predicate Refused(s: Store, q: Question, now: nat) {
    var swept := Expire(s, now);
    |q.name| > MAX_NAME || (|swept.hints| >= MAX_HINTS && MakeKey(q) !in swept.hints)
  }

  /** The entry a query event leaves, numbered `generation`. */
  function Note(e: Option<Entry>, evidence: Evidence, generation: nat, now: nat, reuse: nat): Entry {
    var prior := if e == None || e.value.expires <= now then BLANK
                 else if e.value.answered then Retire(e.value, now, reuse) else e.value;
    prior.(generation := generation,
           selected := prior.selected || evidence == Selected,
           tunnel := prior.tunnel || evidence == Selected,
           direct := prior.direct || evidence == Unselected,
           unknownUntil := if evidence == Unidentified then now + LIFETIME else prior.unknownUntil,
           expires := Max(prior.expires, now + LIFETIME))
  }

  /** A query event read from the trace. */
  function AddResolved(s: Store, q: Question, evidence: Evidence, now: nat, reuse: nat): Store {
    var swept := Expire(s, now);
    var key := MakeKey(q);
    if Refused(s, q, now) then swept.(overloadedUntil := now + LIFETIME)
    else
      var generation := swept.generations + 1;
      Put(swept.(generations := generation), key, Some(Note(View(swept, key), evidence, generation, now, reuse)))
  }

  predicate Forgettable(e: Entry, now: nat) { !e.tunnel && now >= e.unknownUntil }

  /** The trace session reported lost events. */
  function LostEvents(s: Store, now: nat): Store {
    s.(hints := map k | k in s.hints && !Forgettable(s.hints[k], now) :: s.hints[k],
       directBlockedUntil := now + LIFETIME)
  }

  /** The entry an answer leaves; `current` says the answer is for the entry's latest generation. */
  function Finish(e: Entry, current: bool, now: nat, reuse: nat): Entry {
    var marked := if e.decision == Tunnel && e.selected
      then e.(selectedAnswered := true, selectedAnsweredAt := now, expires := Max(e.expires, now + reuse))
      else e;
    if current then marked.(answered := true, answeredAt := now) else marked
  }

  /** The exchange decided on `generation` (None: whatever is latest) was answered. */
  function Complete(s: Store, key: Key, generation: Option<nat>, now: nat, reuse: nat): Store {
    if key !in s.hints then s
    else
      var current := generation == None || generation == Some(s.hints[key].generation);
      Put(s, key, Some(Finish(s.hints[key], current, now, reuse)))
  }

  /** What a decision leaves of an entry, its route, and whether the route is a reused one. */
  datatype Ruling = Ruling(entry: Option<Entry>, route: Option<Route>, reused: bool)

  function RuleAnswered(e: Entry, directAllowed: bool, now: nat, reuse: nat): Ruling {
    if e.tunnel && e.decision != Tunnel then
      Ruling(Some(e.(answered := false, decision := Tunnel)), Some(ToTunnel), false)
    else if e.decision == Pending || now >= e.answeredAt + reuse then
      var next := Retire(e, now, reuse);
      if Forgettable(next, now) then Ruling(None, None, false)
      else if next.tunnel then Ruling(Some(next.(decision := Tunnel)), Some(ToTunnel), false)
      else Ruling(Some(next), None, false)
    else if e.decision == Tunnel then Ruling(Some(e), Some(ToTunnel), true)
    else if directAllowed then Ruling(Some(e), Some(ToDirect), true)
    else Ruling(Some(e), None, false)
  }

  function RuleUnanswered(e: Entry, directAllowed: bool): Ruling {
    if e.tunnel || e.decision == Tunnel then Ruling(Some(e.(decision := Tunnel)), Some(ToTunnel), false)
    else if directAllowed && (e.direct || e.decision == Direct) then
      Ruling(Some(e.(decision := Direct)), Some(ToDirect), false)
    else Ruling(Some(e), None, false)
  }

  function Rule(e: Option<Entry>, unblocked: bool, now: nat, reuse: nat): Ruling {
    if e == None || e.value.expires <= now then Ruling(None, None, false)
    else
      var directAllowed := unblocked && now >= e.value.unknownUntil;
      if e.value.answered then RuleAnswered(e.value, directAllowed, now, reuse)
      else RuleUnanswered(e.value, directAllowed)
  }

  datatype Verdict = Verdict(store: Store, route: Option<Route>, reused: bool)

  /** The route the hints give now, or none; without allowDirect only tunnel evidence decides. */
  function Decide(s: Store, key: Key, allowDirect: bool, now: nat, reuse: nat): Verdict {
    var swept := Expire(s, now);
    var ruling := Rule(View(swept, key), allowDirect && now >= s.directBlockedUntil, now, reuse);
    Verdict(Put(swept, key, ruling.entry), ruling.route, ruling.reused)
  }

  /** The key's entry is live, out of quarantine and without tunnel evidence. */
  predicate Unobstructed(s: Store, key: Key, now: nat) {
    key in s.hints && now < s.hints[key].expires && now >= s.hints[key].unknownUntil && !s.hints[key].tunnel
  }

  /** The key's entry is live and carries tunnel evidence that no tunnel decision has claimed. */
  predicate Claims(s: Store, key: Key, now: nat) {
    key in s.hints && now < s.hints[key].expires && s.hints[key].tunnel && s.hints[key].decision != Tunnel
  }

  /** A decision, with the overload check that precedes it at its own clock reading. */
  function Take(s: Store, key: Key, allowDirect: bool, checked: nat, now: nat, reuse: nat): Verdict {
    if checked < s.overloadedUntil then Verdict(s, None, false) else Decide(s, key, allowDirect, now, reuse)
  }

  /** Asked, behind the barrier, before a direct answer is delivered. */
  predicate DirectAnswerUnsafe(s: Store, key: Key, now: nat) {
    now < s.directBlockedUntil || now < s.overloadedUntil ||
    (key in s.hints && (s.hints[key].tunnel || now < s.hints[key].unknownUntil))
  }

  /** The table updated in place; `Value` is the store its fields hold. */
  class Hints {
    var hints: map<Key, Entry>
    var nextExpiry: nat
    var overloadedUntil: nat
    var directBlockedUntil: nat
    var generations: nat
    const reuseWindow: nat

    function Value(): Store reads this {
      Store(hints, nextExpiry, overloadedUntil, directBlockedUntil, generations)
    }

    constructor (reuseWindow: nat)
      ensures Value() == EMPTY && this.reuseWindow == reuseWindow
    {
      hints, nextExpiry, overloadedUntil, directBlockedUntil, generations := map[], 0, 0, 0, 0;
      this.reuseWindow := reuseWindow;
    }

    method Sweep(now: nat)
      modifies this`hints, this`nextExpiry
      ensures Value() == Expire(old(Value()), now)
    {
      if now < nextExpiry { return; }
      nextExpiry := now + SCAN_INTERVAL;
      var left := hints.Keys;
      while left != {}
        invariant nextExpiry == now + SCAN_INTERVAL
        invariant left <= hints.Keys <= old(hints).Keys
        invariant forall k :: k in hints ==> hints[k] == old(hints)[k]
        invariant forall k :: k in old(hints) && k !in left ==> (k in hints <==> now < old(hints)[k].expires)
        decreases left
      {
        var k :| k in left;
        left := left - {k};
        if hints[k].expires <= now { hints := hints - {k}; }
      }
      assert hints == Expire(old(Value()), now).hints;
    }

    method Event(q: Question, evidence: Evidence, now: nat) returns (accepted: bool)
      modifies this
      ensures Value() == AddResolved(old(Value()), q, evidence, now, reuseWindow)
      ensures accepted == !Refused(old(Value()), q, now)
    {
      var key := MakeKey(q);
      Sweep(now);
      if |q.name| > MAX_NAME || (|hints| >= MAX_HINTS && key !in hints) {
        overloadedUntil := now + LIFETIME;
        return false;
      }
      var pending := if key in hints then hints[key] else BLANK;
      if pending.expires <= now { pending := BLANK; }
      else if pending.answered { pending := Retire(pending, now, reuseWindow); }
      generations := generations + 1;
      pending := pending.(generation := generations,
                          selected := pending.selected || evidence == Selected,
                          tunnel := pending.tunnel || evidence == Selected,
                          direct := pending.direct || evidence == Unselected);
      if evidence == Unidentified { pending := pending.(unknownUntil := now + LIFETIME); }
      pending := pending.(expires := Max(pending.expires, now + LIFETIME));
      hints := hints[key := pending];
      accepted := true;
    }

    /** Lost events: exactly the entries with tunnel evidence or a running quarantine survive, unchanged, and
        whatever they hold, no decision goes direct until the block ends. */
    method Lost(now: nat)
      modifies this`hints, this`directBlockedUntil
      ensures Value() == LostEvents(old(Value()), now)
      ensures forall k :: k in hints <==> k in old(hints) && (old(hints)[k].tunnel || now < old(hints)[k].unknownUntil)
      ensures forall k :: k in hints ==> hints[k] == old(hints)[k]
      ensures forall key, allowDirect, later: nat :: later < now + LIFETIME ==>
                Decide(Value(), key, allowDirect, later, reuseWindow).route != Some(ToDirect)
    {
      hints := map k | k in hints && !(!hints[k].tunnel && now >= hints[k].unknownUntil) :: hints[k];
      directBlockedUntil := now + LIFETIME;
    }

    method Answered(key: Key, generation: Option<nat>, now: nat)
      modifies this`hints
      ensures Value() == Complete(old(Value()), key, generation, now, reuseWindow)
    {
      if key !in hints { return; }
      var pending := hints[key];
      if pending.decision == Tunnel && pending.selected {
        pending := pending.(selectedAnswered := true, selectedAnsweredAt := now);
        pending := pending.(expires := Max(pending.expires, now + reuseWindow));
      }
      hints := hints[key := pending];
      if generation.Some? && generation.value != pending.generation { return; }
      pending := pending.(answered := true, answeredAt := now);
      hints := hints[key := pending];
    }

    method RouteNow(key: Key, allowDirect: bool, now: nat) returns (route: Option<Route>, reused: bool)
      modifies this`hints, this`nextExpiry
      ensures Verdict(Value(), route, reused) == Decide(old(Value()), key, allowDirect, now, reuseWindow)
    {
      route, reused := None, false;
      Sweep(now);
      if key !in hints { return; }
      var pending := hints[key];
      if pending.expires <= now {
        hints := hints - {key};
        return;
      }
      var directAllowed := allowDirect && now >= directBlockedUntil && now >= pending.unknownUntil;
      if pending.answered {
        if pending.tunnel && pending.decision != Tunnel {
          hints := hints[key := pending.(answered := false, decision := Tunnel)];
          return Some(ToTunnel), false;
        }
        if pending.decision == Pending || now >= pending.answeredAt + reuseWindow {
          pending := Retire(pending, now, reuseWindow);
          if !pending.tunnel && now >= pending.unknownUntil {
            hints := hints - {key};
          } else if pending.tunnel {
            hints := hints[key := pending.(decision := Tunnel)];
            route := Some(ToTunnel);
          } else {
            hints := hints[key := pending];
          }
          return;
        }
        assert hints == hints[key := pending];
        if pending.decision == Tunnel || directAllowed {
          route, reused := Some(if pending.decision == Tunnel then ToTunnel else ToDirect), true;
        }
        return;
      }
      if pending.tunnel || pending.decision == Tunnel {
        hints := hints[key := pending.(decision := Tunnel)];
        route := Some(ToTunnel);
      } else if directAllowed && (pending.direct || pending.decision == Direct) {
        hints := hints[key := pending.(decision := Direct)];
        route := Some(ToDirect);
      } else {
        assert hints == hints[key := pending];
      }
    }

    /** A decision with its overload check. An overloaded table gives no route and stays as it is. Otherwise a direct
        route needs permission, no block and a live entry free of tunnel evidence and quarantine, a live entry with
        unclaimed tunnel evidence goes to the tunnel, and no other key's entry changes beyond expiry. */
    method TakeNow(key: Key, allowDirect: bool, checked: nat, now: nat) returns (route: Option<Route>, reused: bool)
      modifies this`hints, this`nextExpiry
      ensures Verdict(Value(), route, reused) == Take(old(Value()), key, allowDirect, checked, now, reuseWindow)
      ensures checked < overloadedUntil ==> route == None && Value() == old(Value())
      ensures route == Some(ToDirect) ==>
                allowDirect && now >= directBlockedUntil && Unobstructed(old(Value()), key, now)
      ensures checked >= overloadedUntil && Claims(old(Value()), key, now) ==> route == Some(ToTunnel) && !reused
      ensures forall k :: k != key && k in hints ==> k in old(hints) && hints[k] == old(hints)[k]
      ensures forall k :: k != key && k in old(hints) && k !in hints ==> old(hints)[k].expires <= now
    {
      if checked < overloadedUntil { return None, false; }
      route, reused := RouteNow(key, allowDirect, now);
    }
  }
}
