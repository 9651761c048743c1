/** Packet-mark bits: which bits each foreign rule can change, and the allocation of two bits none of them does.

    A 32-bit word is the set of its one bits: `|` is union, `&` intersection, `^` symmetric difference, `~`
    complement within thirty-two bits. The meaning of a rule is the mark it leaves on a packet; a rule may read and
    write the connection's mark too. A rule in any other form is refused and so never reaches an allocation. */
module MarkBits {
  import opened Options

  const WIDTH := 32

  predicate Bit(k: nat) { k < WIDTH }

  type Word = s: set<nat> | forall k :: k in s ==> Bit(k)

  const ALL: Word := set k: nat | 0 <= k < WIDTH && Bit(k)

  function Not(w: Word): Word { ALL - w }

  function Xor(v: Word, w: Word): Word { (v - w) + (w - v) }

  datatype Packet = Packet(mark: Word, ct: Word)

  // --- nftables mark assignments ---

  datatype Operator = OrWith | XorWith | AndWith

  /** The left operand of an assignment: the mark, the mark under a mask, or anything else. */
  datatype Operand = Mark | Masked(mask: Word) | Other

  /** `meta mark set` of an expression, or of a plain number. */
  datatype Assignment = Expression(operator: Operator, left: Operand, constant: Word) | Number(value: Word)

  /** The bits an assignment can change, or none if it is refused. */
  function AssignedBits(a: Assignment): Option<Word> {
    match a
    case Number(_) => Some(ALL)
    case Expression(operator, Mark, constant) => Some(if operator == AndWith then Not(constant) else constant)
    case Expression(operator, Masked(mask), constant) =>
      if operator == AndWith then None else Some(Not(mask) + constant)
    case Expression(_, Other, _) => None
  }

  function Combine(operator: Operator, left: Word, right: Word): Word {
    match operator
    case OrWith => left + right
    case XorWith => Xor(left, right)
    case AndWith => left * right
  }

  /** What the kernel makes of a supported assignment. */
  function Assign(a: Assignment, mark: Word): Word {
    match a
    case Number(value) => value
    case Expression(operator, Masked(mask), constant) => Combine(operator, mark * mask, constant)
    case Expression(operator, _, constant) => Combine(operator, mark, constant)
  }

  // --- iptables targets ---

  datatype MarkOperation = SetXmark | SetMark | AndMark | OrMark | XorMark

  datatype Shift = NoShift | LeftShift(bits: nat) | RightShift(bits: nat)

  /** `Restore` restores the packet's mark from the connection's; `SaveOrSet` writes only the connection's mark. */
  datatype Target =
    | Tproxy(mark: Option<(Word, Word)>)
    | MarkTarget(operation: MarkOperation, value: Word, mask: Word)
    | Restore(nfmask: Word, ctmask: Word, shift: Shift)
    | SaveOrSet

  predicate Supported(t: Target) {
    t.Restore? ==> match t.shift
                   case NoShift => true
                   case LeftShift(bits) => bits <= 31
                   case RightShift(bits) => bits <= 31
  }

  function Shifted(w: Word, s: Shift): Word {
    match s
    case NoShift => w
    case LeftShift(bits) => set k | k in w && Bit(k + bits) :: k + bits
    case RightShift(bits) => set k | k in w && k >= bits :: k - bits
  }

  /** The packet-mark bits a target can change, or none if it is refused. */
  function TargetBits(t: Target): Option<Word> {
    if !Supported(t) then None
    else
      match t
      case Tproxy(None) => Some({})
      case Tproxy(Some((value, mask))) => Some(value + mask)
      case MarkTarget(AndMark, value, _) => Some(Not(value))
      case MarkTarget(OrMark, value, _) => Some(value)
      case MarkTarget(XorMark, value, _) => Some(value)
      case MarkTarget(_, value, mask) => Some(mask + value)
      case SaveOrSet => Some({})
      case Restore(nfmask, ctmask, shift) => Some(nfmask + Shifted(ctmask, shift))
  }

  /** The mark a target leaves on a packet. */
  function Retarget(t: Target, p: Packet): Word {
    match t
    case Tproxy(None) => p.mark
    case Tproxy(Some((value, mask))) => Xor(p.mark - mask, value)
    case MarkTarget(SetXmark, value, mask) => Xor(p.mark - mask, value)
    case MarkTarget(SetMark, value, mask) => Xor(p.mark - (mask + value), value)
    case MarkTarget(AndMark, value, _) => p.mark * value
    case MarkTarget(OrMark, value, _) => p.mark + value
    case MarkTarget(XorMark, value, _) => Xor(p.mark, value)
    case SaveOrSet => p.mark
    case Restore(nfmask, ctmask, shift) => Xor(p.mark - nfmask, Shifted(p.ct * ctmask, shift))
  }

  // --- Any rule ---

  datatype Rule = Nft(assignment: Assignment) | Iptables(target: Target)

  function Bits(r: Rule): Option<Word> {
    match r
    case Nft(a) => AssignedBits(a)
    case Iptables(t) => TargetBits(t)
  }

  function MarkAfter(r: Rule, p: Packet): Word {
    match r
    case Nft(a) => Assign(a, p.mark)
    case Iptables(t) => Retarget(t, p)
  }

  lemma ShiftStays(w: Word, mask: Word, s: Shift)
    ensures Shifted(w * mask, s) <= Shifted(mask, s)
  {
  }

  /** A rule changes no packet-mark bit outside the bits inventoried for it. */
  lemma RuleStaysInBits(r: Rule, p: Packet)
    requires Bits(r).Some?
    ensures MarkAfter(r, p) - Bits(r).value == p.mark - Bits(r).value
  {
    if r.Iptables? && r.target.Restore? { ShiftStays(p.ct, r.target.ctmask, r.target.shift); }
  }

  predicate Covers(rules: seq<Rule>, used: Word) {
    forall k :: 0 <= k < |rules| ==> Bits(rules[k]).Some? && Bits(rules[k]).value <= used
  }

  /** Accumulate the bits of every rule; one refused rule refuses the inventory. */
  method Inventory(rules: seq<Rule>) returns (used: Option<Word>)
    ensures used.Some? <==> forall k :: 0 <= k < |rules| ==> Bits(rules[k]).Some?
    ensures used.Some? ==> Covers(rules, used.value)
    ensures used.Some? ==> forall b :: b in used.value ==> exists k :: 0 <= k < |rules| && b in Bits(rules[k]).value
  {
    var bits: Word := {};
    for i := 0 to |rules|
      invariant forall k :: 0 <= k < i ==> Bits(rules[k]).Some? && Bits(rules[k]).value <= bits
      invariant forall b :: b in bits ==> exists k :: 0 <= k < i && b in Bits(rules[k]).value
    {
      if Bits(rules[i]).None? { return None; }
      bits := bits + Bits(rules[i]).value;
    }
    used := Some(bits);
  }

  /** One rule of the inventory applied to a packet; it may leave any connection mark. */
  datatype Application = Application(rule: nat, ct: Word)

  predicate OnRules(rules: seq<Rule>, path: seq<Application>) {
    forall i :: 0 <= i < |path| ==> path[i].rule < |rules|
  }

  function Traverse(rules: seq<Rule>, p: Packet, path: seq<Application>): Packet
    requires OnRules(rules, path)
    decreases |path|
  {
    if path == [] then p
    else Traverse(rules, Packet(MarkAfter(rules[path[0].rule], p), path[0].ct), path[1..])
  }

  /** No sequence of inventoried rules, in any order and any number, changes a bit that none of them was
      inventoried for. */
  lemma {:induction false} FreeBitsStay(rules: seq<Rule>, used: Word, p: Packet, path: seq<Application>, mask: Word)
    requires Covers(rules, used) && mask !! used
    requires OnRules(rules, path)
    ensures Traverse(rules, p, path).mark * mask == p.mark * mask
    decreases |path|
  {
    if path != [] {
      var r := rules[path[0].rule];
      RuleStaysInBits(r, p);
      var mark := MarkAfter(r, p);
      assert mark * mask == p.mark * mask by {
        forall b | b in mask ensures b in mark <==> b in p.mark {
          assert b in mark - Bits(r).value <==> b in p.mark - Bits(r).value;
        }
      }
      FreeBitsStay(rules, used, Packet(mark, path[0].ct), path[1..], mask);
    }
  }

  // --- Allocation ---

  datatype Allocation = Allocation(mask: Word, mark: Word, outer: Word, table: nat, priority: nat, zone: nat)

  /** The allocation's own validator. */
  predicate Valid(a: Allocation) {
    && |a.mask| == 2 && |a.mark| == 1 && |a.outer| == 1 && a.mark != a.outer && a.mark + a.outer == a.mask
    && 57000 <= a.table <= 57999 && 1 <= a.priority <= 1000 && 1 <= a.zone <= 65535
  }

  predicate AllTaken(taken: set<nat>, from: nat, end: nat) { forall k :: from <= k < end ==> k in taken }

  /** The first number of a range that is not taken. */
  method FirstFree(from: nat, end: nat, taken: set<nat>) returns (r: Option<nat>)
    requires from <= end
    ensures r.Some? ==> from <= r.value < end && r.value !in taken && AllTaken(taken, from, r.value)
    ensures r.None? <==> AllTaken(taken, from, end)
  {
    for k := from to end
      invariant AllTaken(taken, from, k)
    {
      if k !in taken { return Some(k); }
    }
    r := None;
  }

  /** The lowest non-zero priority in use, or 1001. */
  method FirstForeign(priorities: set<nat>) returns (first: nat)
    ensures first != 0 && (first in priorities || first == 1001)
    ensures forall p :: p in priorities && p != 0 ==> first <= p
  {
    var rest := priorities - {0};
    var best: Option<nat> := None;
    while rest != {}
      invariant rest <= priorities - {0}
      invariant best.Some? ==> best.value in priorities && best.value != 0
      invariant forall p :: p in priorities && p != 0 ==> p in rest || (best.Some? && best.value <= p)
      decreases |rest|
    {
      var p :| p in rest;
      if best.None? || p < best.value { best := Some(p); }
      rest := rest - {p};
    }
    first := if best.None? then 1001 else best.value;
  }

  /** A free priority before every foreign one: that is one, or none. */
  method ChoosePriority(priorities: set<nat>) returns (r: Option<nat>)
    ensures r == if 1 in priorities then None else Some(1)
  {
    var first := FirstForeign(priorities);
    var end := if first < 1001 then first else 1001;
    r := FirstFree(1, end, priorities);
  }

  const PREFERRED: Word := {24, 25}

  datatype Usage = Usage(mask: Word, tables: set<nat>, priorities: set<nat>, zones: set<nat>)

  /** Strictly ascending free bits, all of them. */
  ghost predicate FreeBits(used: Word, free: seq<nat>) {
    && (forall i, j :: 0 <= i < j < |free| ==> free[i] < free[j])
    && (forall b: nat :: b in free <==> Bit(b) && b !in used)
  }

  method ListFree(used: Word) returns (free: seq<nat>)
    ensures FreeBits(used, free)
  {
    free := [];
    for b := 0 to WIDTH
      invariant forall i, j :: 0 <= i < j < |free| ==> free[i] < free[j]
      invariant forall k: nat :: k in free <==> k < b && Bit(k) && k !in used
    {
      if b !in used { free := free + [b]; }
    }
  }

  ghost predicate TwoFree(used: Word) { exists a, b :: Bit(a) && Bit(b) && a < b && a !in used && b !in used }

  ghost predicate Exhausted(u: Usage) {
    || !TwoFree(u.mask) || 1 in u.priorities
    || AllTaken(u.tables, 57000, 58000) || AllTaken(u.zones, 1, 65536)
  }

  /** Two mark bits no one uses: the preferred pair if it is free, otherwise the two lowest. */
  method ChooseBits(used: Word) returns (chosen: Option<(nat, nat)>)
    ensures chosen.Some? <==> TwoFree(used)
    ensures chosen.Some? ==> Bit(chosen.value.0) && Bit(chosen.value.1) && chosen.value.0 < chosen.value.1
    ensures chosen.Some? ==> chosen.value.0 !in used && chosen.value.1 !in used
    ensures chosen.Some? && used !! PREFERRED ==> chosen.value == (24, 25)
    ensures chosen.Some? && !(used !! PREFERRED) ==>
              forall b: nat :: Bit(b) && b !in used && b < chosen.value.1 ==> b == chosen.value.0
  {
    var free := ListFree(used);
    if |free| < 2 {
      assert forall a: nat :: Bit(a) && a !in used ==> a in free;
      return None;
    }
    assert free[0] in free && free[1] in free;
    forall b: nat | Bit(b) && b !in used && b < free[1] ensures b == free[0] { assert b in free; }
    if used !! PREFERRED {
      assert 24 in PREFERRED && 25 in PREFERRED;
      return Some((24, 25));
    }
    chosen := Some((free[0], free[1]));
  }

  /** The lower bit is the mark, the other the outer mark. */
  function PairAllocation(low: nat, high: nat, table: nat, priority: nat, zone: nat): Allocation
    requires Bit(low) && Bit(high)
  {
    var mask, mark: Word := {low, high}, {low};
    Allocation(mask, mark, Xor(mask, mark), table, priority, zone)
  }

  // --- The mark as the mask's lowest bit ---

  /** Bit k of an unbounded integer in two's complement. */
  predicate BitOf(n: int, k: nat)
    decreases k
  {
    if k == 0 then n % 2 == 1 else BitOf(n / 2, k - 1)
  }

  function Power(k: nat): nat { if k == 0 then 1 else 2 * Power(k - 1) }

  lemma {:induction false} PowerBits(high: nat, k: nat)
    ensures BitOf(Power(high), k) <==> k == high
    ensures !BitOf(0, k)
  {
    if k > 0 { PowerBits(if high > 0 then high - 1 else 0, k - 1); }
  }

  /** The sum of two different powers has their two bits. */
  lemma {:induction false} PairBits(low: nat, high: nat, k: nat)
    requires low < high
    ensures BitOf(Power(low) + Power(high), k) <==> k == low || k == high
  {
    if low == 0 {
      if k > 0 { PowerBits(high - 1, k - 1); }
    } else if k > 0 {
      PairBits(low - 1, high - 1, k - 1);
    }
  }

  lemma {:induction false} ComplementFlips(n: int, k: nat)
    ensures BitOf(-n - 1, k) != BitOf(n, k)
    decreases k
  {
    if k > 0 {
      assert (-n - 1) / 2 == -(n / 2) - 1;
      ComplementFlips(n / 2, k - 1);
    }
  }

  /** An integer and its negation share exactly one bit, the lowest. */
  lemma {:induction false} NegationKeepsLowest(n: int, low: nat, k: nat)
    requires BitOf(n, low) && forall i: nat :: i < low ==> !BitOf(n, i)
    ensures BitOf(n, k) && BitOf(-n, k) <==> k == low
    decreases k
  {
    if low > 0 {
      assert !BitOf(n, 0);
      assert -n / 2 == -(n / 2);
      forall i: nat | i < low - 1 ensures !BitOf(n / 2, i) { assert !BitOf(n, i + 1); }
      if k > 0 { NegationKeepsLowest(n / 2, low - 1, k - 1); }
    } else if k > 0 {
      assert (-n) / 2 == -(n / 2) - 1;
      ComplementFlips(n / 2, k - 1);
    }
  }

  /** On the integer of an allocated pair, `mask & -mask` is the mark and `mask ^ mark` the outer mark. */
  lemma LowestBitIsMark(low: nat, high: nat, k: nat)
    requires Bit(low) && Bit(high) && low < high
    ensures var mask, a := Power(low) + Power(high), PairAllocation(low, high, 57000, 1, 1);
            && (BitOf(mask, k) <==> k in a.mask)
            && (BitOf(mask, k) && BitOf(-mask, k) <==> k in a.mark)
            && (BitOf(mask, k) != (BitOf(mask, k) && BitOf(-mask, k)) <==> k in a.outer)
  {
    var mask := Power(low) + Power(high);
    forall i: nat | i <= low ensures BitOf(mask, i) <==> i == low { PairBits(low, high, i); }
    PairBits(low, high, k);
    NegationKeepsLowest(mask, low, k);
  }

  lemma PairIsValid(low: nat, high: nat, used: Word)
    requires Bit(low) && Bit(high) && low < high && low !in used && high !in used
    ensures var a := PairAllocation(low, high, 57000, 1, 1);
            Valid(a) && a.mask !! used && a.mark == {low} && a.outer == {high}
  {
    var mask, mark: Word := {low, high}, {low};
    assert Xor(mask, mark) == {high};
    assert |mask| == 2;
  }

  /** Allocate mark bits, a routing table, a priority and a zone. It refuses exactly when one of them is exhausted;
      otherwise the allocation is valid, free of every inventoried use, and its priority is one. */
  method Allocate(u: Usage) returns (a: Option<Allocation>)
    ensures a.None? <==> Exhausted(u)
    ensures a.Some? ==> Valid(a.value) && a.value.mask !! u.mask
    ensures a.Some? ==> forall b, c :: b in a.value.mark && c in a.value.outer ==> b < c
    ensures a.Some? ==> a.value.table !in u.tables && a.value.zone !in u.zones
    ensures a.Some? ==> a.value.priority == 1 && 1 !in u.priorities
  {
    var chosen := ChooseBits(u.mask);
    if chosen.None? { return None; }
    var priority := ChoosePriority(u.priorities);
    var table := FirstFree(57000, 58000, u.tables);
    var zone := FirstFree(1, 65536, u.zones);
    if priority.None? || table.None? || zone.None? { return None; }
    PairIsValid(chosen.value.0, chosen.value.1, u.mask);
    a := Some(PairAllocation(chosen.value.0, chosen.value.1, table.value, priority.value, zone.value));
  }

  /** Whatever the inventoried rules do to a packet, in any order and number, the allocated bits keep their value. */
  lemma AllocatedBitsStay(rules: seq<Rule>, u: Usage, a: Allocation, p: Packet, path: seq<Application>)
    requires Covers(rules, u.mask) && a.mask !! u.mask
    requires OnRules(rules, path)
    ensures Traverse(rules, p, path).mark * a.mask == p.mark * a.mask
  {
    FreeBitsStay(rules, u.mask, p, path, a.mask);
  }

  /** The bits some rule of the inventory can change. */
  ghost function UsedBits(rules: seq<Rule>): Word {
    set b: nat | 0 <= b < WIDTH && Bit(b) && exists k :: 0 <= k < |rules| && b in UsedBy(rules[k])
  }

  function UsedBy(r: Rule): Word { match Bits(r) case Some(bits) => bits case None => {} }

  /** Inventory the rules, add the mark bits in other use, and allocate. It refuses exactly if a rule is refused or
      something is exhausted; otherwise no sequence of the rules changes the allocated bits of any packet. */
  method AllocateBeside(rules: seq<Rule>, others: Word, tables: set<nat>, priorities: set<nat>, zones: set<nat>)
    returns (a: Option<Allocation>)
    ensures a.None? <==> (exists k :: 0 <= k < |rules| && Bits(rules[k]).None?) ||
                         Exhausted(Usage(UsedBits(rules) + others, tables, priorities, zones))
    ensures a.Some? ==> Valid(a.value) && a.value.mask !! others
    ensures a.Some? ==> forall p: Packet, path | OnRules(rules, path) ::
              Traverse(rules, p, path).mark * a.value.mask == p.mark * a.value.mask
  {
    var used := Inventory(rules);
    if used.None? { return None; }
    assert used.value == UsedBits(rules);
    var u := Usage(used.value + others, tables, priorities, zones);
    a := Allocate(u);
    if a.Some? {
      forall p: Packet, path | OnRules(rules, path)
        ensures Traverse(rules, p, path).mark * a.value.mask == p.mark * a.value.mask
      {
        AllocatedBitsStay(rules, u, a.value, p, path);
      }
    }
  }
}
