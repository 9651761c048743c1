/** Rewriting a DNS response in place: every resource record's TTL becomes zero, except in an OPT pseudo-record,
    whose TTL field carries flags (section 6.1.2 of RFC 6891). Names are skipped without following compression
    pointers (sections 4.1.3 and 4.1.4 of RFC 1035). */
module DnsWire {
  import opened Options

  newtype byte = x: int | 0 <= x < 256

  const HEADER := 12
  const OPT := 41

  function Read16(p: seq<byte>, o: nat): nat
    requires o + 1 < |p|
  {
    p[o] as nat * 256 + p[o + 1] as nat
  }

  /** The offset behind a name: a zero length ends it, a length of 192 or more is a two-byte pointer that ends it,
      and lengths from 64 to 191 are invalid. */
  function NameEnd(p: seq<byte>, o: nat): (r: Option<nat>)
    ensures r.Some? ==> o < r.value <= |p|
    decreases |p| - o
  {
    if o >= |p| then None
    else
      var length := p[o] as nat;
      if length == 0 then Some(o + 1)
      else if length >= 192 then if o + 1 >= |p| then None else Some(o + 2)
      else if length >= 64 || o + 1 + length > |p| then None
      else NameEnd(p, o + 1 + length)
  }

  /** The offset behind `n` questions. */
  function QuestionsEnd(p: seq<byte>, o: nat, n: nat): (r: Option<nat>)
    ensures r.Some? ==> o <= r.value
    decreases n
  {
    if n == 0 then Some(o)
    else
      var name := NameEnd(p, o);
      if name.None? || name.value + 4 > |p| then None else QuestionsEnd(p, name.value + 4, n - 1)
  }

  /** Where the fixed fields of the record at `o` start: type, class, TTL and data length, ten bytes. */
  function Fields(p: seq<byte>, o: nat): (r: Option<nat>)
    ensures r.Some? ==> o < r.value && r.value + 10 <= |p|
  {
    var name := NameEnd(p, o);
    if name.None? || name.value + 10 > |p| then None else name
  }

  /** The offset behind the record at `o`. */
  function RecordEnd(p: seq<byte>, o: nat): (r: Option<nat>)
    ensures r.Some? ==> Fields(p, o).Some? && Fields(p, o).value + 10 <= r.value <= |p|
  {
    var f := Fields(p, o);
    if f.None? then None
    else
      var end := f.value + 10 + Read16(p, f.value + 8);
      if end > |p| then None else Some(end)
  }

  /** Where the `i`-th record from `o` starts. */
  function RecordStart(p: seq<byte>, o: nat, i: nat): Option<nat>
    decreases i
  {
    if i == 0 then Some(o)
    else
      var end := RecordEnd(p, o);
      if end.None? then None else RecordStart(p, end.value, i - 1)
  }

  predicate WellFormedRecords(p: seq<byte>, o: nat, n: nat)
    decreases n
  {
    n == 0 || (RecordEnd(p, o).Some? && WellFormedRecords(p, RecordEnd(p, o).value, n - 1))
  }

  /** The fixed fields of the records that have a TTL, among `n` records from `o`, up to the first malformed one. */
  function Ttls(p: seq<byte>, o: nat, n: nat): seq<nat>
    decreases n
  {
    if n == 0 || Fields(p, o).None? then []
    else
      var f := Fields(p, o).value;
      var here := if Read16(p, f) == OPT then [] else [f];
      if RecordEnd(p, o).None? then here else here + Ttls(p, RecordEnd(p, o).value, n - 1)
  }

  predicate InTtl(f: nat, k: nat) { f + 4 <= k < f + 8 }

  predicate InSomeTtl(ttls: seq<nat>, k: nat) { exists j :: 0 <= j < |ttls| && InTtl(ttls[j], k) }

  /** The packet with those TTLs zero. */
  function Blank(p: seq<byte>, ttls: seq<nat>): (q: seq<byte>)
    ensures |q| == |p|
  {
    seq(|p|, k requires 0 <= k < |p| => if InSomeTtl(ttls, k) then 0 else p[k])
  }

  /** How a response starts: its records' offset, if the questions are well formed, and how many there are. */
  function FirstRecord(p: seq<byte>): Option<nat> {
    if |p| < HEADER then None else QuestionsEnd(p, HEADER, Read16(p, 4))
  }

  function RecordCount(p: seq<byte>): nat
    requires |p| >= HEADER
  {
    Read16(p, 6) + Read16(p, 8) + Read16(p, 10)
  }

  predicate WellFormed(p: seq<byte>) {
    FirstRecord(p).Some? && WellFormedRecords(p, FirstRecord(p).value, RecordCount(p))
  }

  function ResponseTtls(p: seq<byte>): seq<nat> {
    if FirstRecord(p).None? then [] else Ttls(p, FirstRecord(p).value, RecordCount(p))
  }

  // --- The rewrite in place ---

  lemma {:induction false} NameEndSuffix(p: seq<byte>, q: seq<byte>, o: nat)
    requires |p| == |q| && forall k :: o <= k < |p| ==> p[k] == q[k]
    ensures NameEnd(p, o) == NameEnd(q, o)
    decreases |p| - o
  {
    if o < |p| && 0 < p[o] as nat < 64 && o + 1 + p[o] as nat <= |p| {
      NameEndSuffix(p, q, o + 1 + p[o] as nat);
    }
  }

  /** Skip a name from `start`. */
  method SkipName(packet: array<byte>, start: nat) returns (ok: bool, offset: nat)
    ensures ok <==> NameEnd(packet[..], start).Some?
    ensures ok ==> offset == NameEnd(packet[..], start).value
  {
    offset := start;
    while offset < packet.Length
      invariant NameEnd(packet[..], offset) == NameEnd(packet[..], start)
    {
      var length := packet[offset] as nat;
      offset := offset + 1;
      if length == 0 { return true, offset; }
      if length >= 192 {
        if offset >= packet.Length { return false, offset; }
        return true, offset + 1;
      }
      if length >= 64 || offset + length > packet.Length { return false, offset; }
      offset := offset + length;
    }
    ok := false;
  }

  /** Skip the questions. */
  method SkipQuestions(packet: array<byte>) returns (ok: bool, offset: nat)
    requires packet.Length >= HEADER
    ensures ok <==> FirstRecord(packet[..]).Some?
    ensures ok ==> offset == FirstRecord(packet[..]).value
  {
    ghost var p := packet[..];
    var questions := packet[4] as nat * 256 + packet[5] as nat;
    offset := HEADER;
    for i := 0 to questions
      invariant QuestionsEnd(p, offset, questions - i) == FirstRecord(p)
    {
      ok, offset := SkipName(packet, offset);
      if !ok || offset + 4 > packet.Length { return false, offset; }
      offset := offset + 4;
    }
    ok := true;
  }

  lemma BlankNext(p: seq<byte>, ttls: seq<nat>, f: nat)
    requires f + 8 <= |p|
    ensures Blank(p, ttls + [f]) == Blank(p, ttls)[f + 4 := 0][f + 5 := 0][f + 6 := 0][f + 7 := 0]
  {
    forall k | 0 <= k < |p| ensures InSomeTtl(ttls + [f], k) <==> InSomeTtl(ttls, k) || InTtl(f, k) {
      if InSomeTtl(ttls, k) {
        var j :| 0 <= j < |ttls| && InTtl(ttls[j], k);
        assert InTtl((ttls + [f])[j], k);
      }
      assert (ttls + [f])[|ttls|] == f;
    }
  }

  /** Blanking behind an offset leaves the rest. */
  lemma BlankBehind(p: seq<byte>, ttls: seq<nat>, o: nat)
    requires forall j :: 0 <= j < |ttls| ==> ttls[j] + 8 <= o
    ensures forall k :: o <= k < |p| ==> Blank(p, ttls)[k] == p[k]
  {
  }

  /** Zero the TTL of the record whose fields start at `f`. */
  method ZeroTtl(packet: array<byte>, f: nat, ghost p: seq<byte>, ghost done: seq<nat>)
    requires f + 10 <= packet.Length && packet[..] == Blank(p, done)
    modifies packet
    ensures packet[..] == Blank(p, done + [f])
  {
    BlankNext(p, done, f);
    ghost var before := packet[..];
    packet[f + 4], packet[f + 5], packet[f + 6], packet[f + 7] := 0, 0, 0, 0;
    assert packet[..] == before[f + 4 := 0][f + 5 := 0][f + 6 := 0][f + 7 := 0];
  }

  /** What remains to be done from record offset `o` on, towards the expected list and verdict. */
  ghost predicate Progress(p: seq<byte>, expected: seq<nat>, fine: bool, o: nat, rest: nat, done: seq<nat>) {
    && (forall j :: 0 <= j < |done| ==> done[j] + 8 <= o)
    && expected == done + Ttls(p, o, rest)
    && (fine <==> WellFormedRecords(p, o, rest))
  }

  function Here(p: seq<byte>, f: nat): seq<nat>
    requires f + 2 <= |p|
  {
    if Read16(p, f) == OPT then [] else [f]
  }

  /** One record, in each way it can turn out. */
  lemma NextRecord(p: seq<byte>, expected: seq<nat>, fine: bool, o: nat, rest: nat, done: seq<nat>)
    requires Progress(p, expected, fine, o, rest, done) && rest > 0
    ensures Fields(p, o).None? ==> expected == done && !fine
    ensures Fields(p, o).Some? && RecordEnd(p, o).None? ==> expected == done + Here(p, Fields(p, o).value) && !fine
    ensures RecordEnd(p, o).Some? ==>
              Progress(p, expected, fine, RecordEnd(p, o).value, rest - 1, done + Here(p, Fields(p, o).value))
  {
    if Fields(p, o).None? {
      assert done + [] == done;
    } else if RecordEnd(p, o).Some? {
      var here := Here(p, Fields(p, o).value);
      var tail := Ttls(p, RecordEnd(p, o).value, rest - 1);
      assert done + (here + tail) == done + here + tail;
    }
  }

  /** Zero the TTL of the record at `offset` and skip it; everything from `offset` on is still as in `p`. */
  method ZeroRecord(packet: array<byte>, offset: nat, ghost p: seq<byte>, ghost done: seq<nat>)
    returns (ok: bool, end: nat, ghost done': seq<nat>)
    requires packet[..] == Blank(p, done) && forall j :: 0 <= j < |done| ==> done[j] + 8 <= offset
    modifies packet
    ensures ok <==> RecordEnd(p, offset).Some?
    ensures ok ==> end == RecordEnd(p, offset).value
    ensures done' == done + if Fields(p, offset).None? then [] else Here(p, Fields(p, offset).value)
    ensures packet[..] == Blank(p, done')
  {
    BlankBehind(p, done, offset);
    NameEndSuffix(packet[..], p, offset);
    done' := done;
    assert done + [] == done;
    ok, end := SkipName(packet, offset);
    if !ok || end + 10 > packet.Length { return false, end, done; }
    var f := end;
    assert Fields(p, offset) == Some(f);
    var kind := packet[f] as nat * 256 + packet[f + 1] as nat;
    if kind != OPT {
      ZeroTtl(packet, f, p, done);
      done' := done + [f];
    }
    var length := packet[f + 8] as nat * 256 + packet[f + 9] as nat;
    assert length == Read16(p, f + 8) by { Untouched(p, done', f, f + 8); Untouched(p, done', f, f + 9); }
    ok, end := f + 10 + length <= packet.Length, f + 10 + length;
  }

  lemma Untouched(p: seq<byte>, ttls: seq<nat>, f: nat, k: nat)
    requires forall j :: 0 <= j < |ttls| ==> ttls[j] <= f
    requires f + 8 <= k < |p|
    ensures Blank(p, ttls)[k] == p[k]
  {
  }

  lemma ProgressStarts(p: seq<byte>, first: nat, total: nat)
    ensures Progress(p, Ttls(p, first, total), WellFormedRecords(p, first, total), first, total, [])
    ensures Blank(p, []) == p
  {
    assert [] + Ttls(p, first, total) == Ttls(p, first, total);
  }

  lemma ProgressEnds(p: seq<byte>, expected: seq<nat>, fine: bool, o: nat, done: seq<nat>)
    requires Progress(p, expected, fine, o, 0, done)
    ensures expected == done && fine
  {
    assert done + [] == done;
  }

  /** One step of the rewrite. */
  method ZeroNext(packet: array<byte>, offset: nat, ghost p: seq<byte>, ghost expected: seq<nat>, ghost fine: bool,
                  ghost rest: nat, ghost done: seq<nat>)
    returns (ok: bool, end: nat, ghost done': seq<nat>)
    requires packet[..] == Blank(p, done) && Progress(p, expected, fine, offset, rest, done) && rest > 0
    modifies packet
    ensures packet[..] == Blank(p, done')
    ensures if ok then Progress(p, expected, fine, end, rest - 1, done') else expected == done' && !fine
  {
    NextRecord(p, expected, fine, offset, rest, done);
    assert done + [] == done;
    ok, end, done' := ZeroRecord(packet, offset, p, done);
  }

  /** Zero the TTL of each record in turn, up to the first malformed one. */
  method ZeroAll(packet: array<byte>, first: nat, total: nat, ghost p: seq<byte>, ghost expected: seq<nat>,
                 ghost fine: bool) returns (ok: bool)
    requires packet[..] == Blank(p, []) && Progress(p, expected, fine, first, total, [])
    modifies packet
    ensures ok == fine && packet[..] == Blank(p, expected)
  {
    var offset: nat := first;
    ghost var done: seq<nat> := [];
    var i := 0;
    while i < total
      invariant 0 <= i <= total && packet[..] == Blank(p, done) && Progress(p, expected, fine, offset, total - i, done)
    {
      ok, offset, done := ZeroNext(packet, offset, p, expected, fine, total - i, done);
      if !ok { return; }
      i := i + 1;
    }
    ProgressEnds(p, expected, fine, offset, done);
    ok := true;
  }

  /** Rewrite a response in place. It succeeds exactly on well-formed responses, and it zeroes the TTLs of the
      records before the first malformed one. */
  method ZeroResponseTtls(packet: array<byte>) returns (ok: bool)
    modifies packet
    ensures ok <==> WellFormed(old(packet[..]))
    ensures packet[..] == Blank(old(packet[..]), ResponseTtls(old(packet[..])))
  {
    assert packet[..] == Blank(packet[..], []);
    if packet.Length < HEADER { return false; }
    var first;
    ok, first := SkipQuestions(packet);
    if !ok { return; }
    var records := packet[6] as nat * 256 + packet[7] as nat + packet[8] as nat * 256 + packet[9] as nat +
      packet[10] as nat * 256 + packet[11] as nat;
    ghost var p := packet[..];
    ProgressStarts(p, first, records);
    ok := ZeroAll(packet, first, records, p, Ttls(p, first, records), WellFormedRecords(p, first, records));
  }

  // --- What the rewrite means ---

  /** The `i`-th record from `o` has its fields at `f` and has a TTL. */
  predicate HasTtl(p: seq<byte>, o: nat, i: nat, f: nat) {
    RecordStart(p, o, i).Some? && Fields(p, RecordStart(p, o, i).value) == Some(f) && Read16(p, f) != OPT
  }

  lemma HasTtlNext(p: seq<byte>, o: nat, i: nat, f: nat)
    requires RecordEnd(p, o).Some?
    ensures HasTtl(p, o, i + 1, f) <==> HasTtl(p, RecordEnd(p, o).value, i, f)
  {
    assert RecordStart(p, o, i + 1) == RecordStart(p, RecordEnd(p, o).value, i);
  }

  /** Every listed field belongs to a record with a TTL, */
  lemma {:induction false} TtlsHaveRecords(p: seq<byte>, o: nat, n: nat, f: nat) returns (i: nat)
    requires f in Ttls(p, o, n)
    ensures i < n && HasTtl(p, o, i, f)
    decreases n
  {
    if RecordEnd(p, o).Some? && f in Ttls(p, RecordEnd(p, o).value, n - 1) {
      var end := RecordEnd(p, o).value;
      var j := TtlsHaveRecords(p, end, n - 1, f);
      HasTtlNext(p, o, j, f);
      i := j + 1;
    } else {
      i := 0;
    }
  }

  /** and every record with a TTL is listed. */
  lemma {:induction false} RecordsHaveTtls(p: seq<byte>, o: nat, n: nat, i: nat, f: nat)
    requires WellFormedRecords(p, o, n) && i < n && HasTtl(p, o, i, f)
    ensures f in Ttls(p, o, n)
    decreases n
  {
    if i > 0 {
      HasTtlNext(p, o, i - 1, f);
      RecordsHaveTtls(p, RecordEnd(p, o).value, n - 1, i - 1, f);
    }
  }

  lemma {:induction false} TtlsAhead(p: seq<byte>, o: nat, n: nat)
    ensures forall j :: 0 <= j < |Ttls(p, o, n)| ==> o < Ttls(p, o, n)[j] && Ttls(p, o, n)[j] + 10 <= |p|
    decreases n
  {
    if n > 0 && RecordEnd(p, o).Some? { TtlsAhead(p, RecordEnd(p, o).value, n - 1); }
  }

  /** From `o` on, `q` differs from `p` at most in the TTLs to be zeroed. */
  ghost predicate SameButTtls(p: seq<byte>, q: seq<byte>, o: nat, n: nat) {
    |p| == |q| && forall k :: o <= k < |p| && !InSomeTtl(Ttls(p, o, n), k) ==> q[k] == p[k]
  }

  lemma {:induction false} NameEndBefore(p: seq<byte>, q: seq<byte>, o: nat)
    requires |p| == |q| && NameEnd(p, o).Some? && forall k :: o <= k < NameEnd(p, o).value ==> p[k] == q[k]
    ensures NameEnd(q, o) == NameEnd(p, o)
    decreases |p| - o
  {
    var length := p[o] as nat;
    if 0 < length < 64 { NameEndBefore(p, q, o + 1 + length); }
  }

  /** The first record's name, type and length are outside every TTL. */
  lemma FirstRecordSame(p: seq<byte>, q: seq<byte>, o: nat, n: nat)
    requires SameButTtls(p, q, o, n) && n > 0 && Fields(p, o).Some?
    ensures Fields(q, o) == Fields(p, o) && RecordEnd(q, o) == RecordEnd(p, o)
    ensures Read16(q, Fields(p, o).value) == Read16(p, Fields(p, o).value)
    ensures RecordEnd(p, o).Some? ==> SameButTtls(p, q, RecordEnd(p, o).value, n - 1)
  {
    var f := Fields(p, o).value;
    var ttls := Ttls(p, o, n);
    if RecordEnd(p, o).Some? {
      var end := RecordEnd(p, o).value;
      var tail := Ttls(p, end, n - 1);
      TtlsAhead(p, end, n - 1);
      forall k | o <= k < |p| && InSomeTtl(ttls, k) ensures InTtl(f, k) || InSomeTtl(tail, k) {
        var j :| 0 <= j < |ttls| && InTtl(ttls[j], k);
        assert ttls[j] == f || ttls[j] in tail;
      }
    }
    assert forall k :: o <= k < f + 10 && !InTtl(f, k) ==> !InSomeTtl(ttls, k);
    NameEndBefore(p, q, o);
  }

  lemma {:induction false} RecordsSame(p: seq<byte>, q: seq<byte>, o: nat, n: nat)
    requires SameButTtls(p, q, o, n)
    requires WellFormedRecords(p, o, n)
    ensures WellFormedRecords(q, o, n) && Ttls(q, o, n) == Ttls(p, o, n)
    ensures forall i :: 0 <= i <= n ==> RecordStart(q, o, i) == RecordStart(p, o, i)
    decreases n
  {
    if n > 0 {
      FirstRecordSame(p, q, o, n);
      var end := RecordEnd(p, o).value;
      RecordsSame(p, q, end, n - 1);
      assert forall i :: 0 < i <= n ==> RecordStart(p, o, i) == RecordStart(p, end, i - 1);
      assert forall i :: 0 < i <= n ==> RecordStart(q, o, i) == RecordStart(q, end, i - 1);
    }
  }

  lemma {:induction false} QuestionsSame(p: seq<byte>, q: seq<byte>, o: nat, n: nat)
    requires |p| == |q| && QuestionsEnd(p, o, n).Some?
    requires forall k :: o <= k < QuestionsEnd(p, o, n).value && k < |p| ==> q[k] == p[k]
    ensures QuestionsEnd(q, o, n) == QuestionsEnd(p, o, n)
    decreases n
  {
    if n > 0 {
      var name := NameEnd(p, o).value;
      assert name + 4 <= QuestionsEnd(p, name + 4, n - 1).value;
      NameEndBefore(p, q, o);
      QuestionsSame(p, q, name + 4, n - 1);
    }
  }

  /** A rewritten response has its records where they were, with every TTL zero, and rewriting it again changes
      nothing. */
  lemma RewriteKeepsRecords(p: seq<byte>)
    requires WellFormed(p)
    ensures var q := Blank(p, ResponseTtls(p));
            && WellFormed(q) && FirstRecord(q) == FirstRecord(p) && RecordCount(q) == RecordCount(p)
            && (forall i :: 0 <= i <= RecordCount(p) ==>
                  RecordStart(q, FirstRecord(p).value, i) == RecordStart(p, FirstRecord(p).value, i))
            && ResponseTtls(q) == ResponseTtls(p) && Blank(q, ResponseTtls(q)) == q
  {
    var first, count, ttls := FirstRecord(p).value, RecordCount(p), ResponseTtls(p);
    var q := Blank(p, ttls);
    TtlsAhead(p, first, count);
    assert forall k :: 0 <= k < first && k < |p| ==> q[k] == p[k];
    assert Read16(q, 4) == Read16(p, 4) && RecordCount(q) == count;
    QuestionsSame(p, q, HEADER, Read16(p, 4));
    RecordsSame(p, q, first, count);
  }

  /** Of any packet, well formed or not, only bytes in the TTL of a record that is not OPT change. */
  lemma RewriteTouchesOnlyTtls(p: seq<byte>, k: nat)
    requires k < |p| && Blank(p, ResponseTtls(p))[k] != p[k]
    ensures FirstRecord(p).Some?
    ensures exists i, f :: 0 <= i < RecordCount(p) && HasTtl(p, FirstRecord(p).value, i, f) && InTtl(f, k)
  {
    var j :| 0 <= j < |ResponseTtls(p)| && InTtl(ResponseTtls(p)[j], k);
    var i := TtlsHaveRecords(p, FirstRecord(p).value, RecordCount(p), ResponseTtls(p)[j]);
  }

  /** Byte by byte: a byte of a well-formed response becomes zero if it lies in the TTL of a record that is not OPT,
      and stays as it is otherwise. */
  lemma RewriteIsExact(p: seq<byte>, k: nat)
    requires WellFormed(p) && k < |p|
    ensures var inTtl := exists i, f :: 0 <= i < RecordCount(p) && HasTtl(p, FirstRecord(p).value, i, f) && InTtl(f, k);
            Blank(p, ResponseTtls(p))[k] == if inTtl then 0 else p[k]
  {
    var first, count, ttls := FirstRecord(p).value, RecordCount(p), ResponseTtls(p);
    if InSomeTtl(ttls, k) {
      var j :| 0 <= j < |ttls| && InTtl(ttls[j], k);
      var i := TtlsHaveRecords(p, first, count, ttls[j]);
    } else {
      forall i: nat, f: nat | i < count && HasTtl(p, first, i, f) ensures !InTtl(f, k) {
        RecordsHaveTtls(p, first, count, i, f);
        var j :| 0 <= j < |ttls| && ttls[j] == f;
      }
    }
  }
}
