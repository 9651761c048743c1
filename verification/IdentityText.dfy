/** The identity record's text: a header, then one row for each attribution path of each entry, holding the entry,
    the path and the identifiers in hexadecimal. A record with any malformed row reads as empty.

    The conversion between wide and UTF-8 text is left out: both are strings here. Entries come in the order of
    the source's ordered map, each once. */
module IdentityText {
  import opened Options

  newtype byte = x: int | 0 <= x < 256

  type Id = seq<byte>

  datatype Group = Group(path: string, ids: seq<Id>)

  datatype Identity = Identity(path: string, ids: seq<Id>, others: seq<Group>)

  datatype Item = Item(entry: string, identity: Identity)

  /** One line of the record. */
  datatype Row = Row(entry: string, path: string, ids: seq<Id>)

  const HEADER := "# wgps-identities 1\n"

  // --- Hexadecimal ---

  function Digit(v: int): char
    requires 0 <= v < 16
  {
    if v < 10 then '0' + v as char else 'a' + (v - 10) as char
  }

  function DigitValue(c: char): int {
    if '0' <= c <= '9' then c as int - '0' as int
    else if 'a' <= c <= 'f' then c as int - 'a' as int + 10
    else if 'A' <= c <= 'F' then c as int - 'A' as int + 10
    else -1
  }

  function Hex(id: Id): (s: string)
    ensures |s| == 2 * |id|
  {
    if id == [] then "" else [Digit(id[0] as int / 16), Digit(id[0] as int % 16)] + Hex(id[1..])
  }

  function Unhex(s: string): Option<Id>
    requires |s| % 2 == 0
  {
    if s == "" then Some([])
    else
      var high, low, rest := DigitValue(s[0]), DigitValue(s[1]), Unhex(s[2..]);
      if high < 0 || low < 0 || rest.None? then None else Some([(high * 16 + low) as byte] + rest.value)
  }

  lemma DigitReads(v: int)
    requires 0 <= v < 16
    ensures DigitValue(Digit(v)) == v && Digit(v) != '\t' && Digit(v) != '\n' && Digit(v) != ','
  {
  }

  lemma {:induction false} HexReads(id: Id)
    ensures Unhex(Hex(id)) == Some(id)
    ensures '\t' !in Hex(id) && '\n' !in Hex(id) && ',' !in Hex(id)
    decreases |id|
  {
    if id != [] {
      var high, low := id[0] as int / 16, id[0] as int % 16;
      DigitReads(high);
      DigitReads(low);
      HexReads(id[1..]);
      assert Hex(id)[2..] == Hex(id[1..]);
      assert (high * 16 + low) as byte == id[0];
      assert [id[0]] + id[1..] == id;
    }
  }

  // --- Searching ---

  /** The first position of `c`, or the length. */
  function Find(s: string, c: char): (k: nat)
    ensures k <= |s| && (k < |s| ==> s[k] == c) && c !in s[..k]
  {
    if s == "" || s[0] == c then 0
    else
      var k := Find(s[1..], c);
      assert s[..k + 1] == [s[0]] + s[1..][..k];
      k + 1
  }

  // --- Printing ---

  function Join(ids: seq<Id>): string {
    if ids == [] then "" else if |ids| == 1 then Hex(ids[0]) else Hex(ids[0]) + "," + Join(ids[1..])
  }

  function Line(row: Row): string { row.entry + "\t" + row.path + "\t" + Join(row.ids) }

  function Text(rows: seq<Row>): string {
    if rows == [] then "" else Line(rows[0]) + "\n" + Text(rows[1..])
  }

  function OtherRows(entry: string, others: seq<Group>): seq<Row> {
    if others == [] then [] else [Row(entry, others[0].path, others[0].ids)] + OtherRows(entry, others[1..])
  }

  /** The rows of one entry; an entry without identifiers has none. */
  function ItemRows(item: Item): seq<Row> {
    if item.identity.ids == [] then []
    else [Row(item.entry, item.identity.path, item.identity.ids)] + OtherRows(item.entry, item.identity.others)
  }

  function Rows(book: seq<Item>): seq<Row> {
    if book == [] then [] else ItemRows(book[0]) + Rows(book[1..])
  }

  function Serialized(book: seq<Item>): string { HEADER + Text(Rows(book)) }

  // --- Parsing ---

  function ParseIds(s: string): Option<seq<Id>>
    decreases |s|
  {
    var comma := Find(s, ',');
    if comma == 0 || comma % 2 != 0 then None
    else
      var id := Unhex(s[..comma]);
      if id.None? then None
      else if comma == |s| then Some([id.value])
      else
        var rest := ParseIds(s[comma + 1..]);
        if rest.None? then None else Some([id.value] + rest.value)
  }

  /** The two parts around the first `c`. */
  function Split(s: string, c: char): Option<(string, string)> {
    var k := Find(s, c);
    if k == |s| then None else Some((s[..k], s[k + 1..]))
  }

  function ParseLine(line: string): Option<Row> {
    var entry := Split(line, '\t');
    if entry.None? || entry.value.0 == "" then None
    else
      var path := Split(entry.value.1, '\t');
      if path.None? || path.value.0 == "" || '\t' in path.value.1 then None
      else
        var ids := ParseIds(path.value.1);
        if ids.None? then None else Some(Row(entry.value.0, path.value.0, ids.value))
  }

  type Identities = map<string, Identity>

  /** The first row of an entry gives its identity, the following ones its further paths. */
  function Insert(result: Identities, row: Row): Identities {
    if row.entry !in result then result[row.entry := Identity(row.path, row.ids, [])]
    else
      var found := result[row.entry];
      result[row.entry := found.(others := found.others + [Group(row.path, row.ids)])]
  }

  function ParseRows(text: string): Option<seq<Row>>
    decreases |text|
  {
    if text == "" then Some([])
    else
      var line := Split(text, '\n');
      if line.None? then None
      else
        var row, rest := ParseLine(line.value.0), ParseRows(line.value.1);
        if row.None? || rest.None? then None else Some([row.value] + rest.value)
  }

  function InsertAll(result: Identities, rows: seq<Row>): Identities
    decreases |rows|
  {
    if rows == [] then result else InsertAll(Insert(result, rows[0]), rows[1..])
  }

  function ParsedBody(body: string): Identities {
    var rows := ParseRows(body);
    if rows.Some? then InsertAll(map[], rows.value) else map[]
  }

  function Parsed(text: string): Identities {
    if HEADER <= text then ParsedBody(text[|HEADER|..]) else map[]
  }

  // --- A row reads back ---

  predicate Clean(s: string) { s != "" && '\t' !in s && '\n' !in s }

  predicate GoodIds(ids: seq<Id>) { ids != [] && forall k :: 0 <= k < |ids| ==> ids[k] != [] }

  predicate GoodRow(row: Row) { Clean(row.entry) && Clean(row.path) && GoodIds(row.ids) }

  predicate GoodRows(rows: seq<Row>) { forall k :: 0 <= k < |rows| ==> GoodRow(rows[k]) }

  lemma {:induction false} FindsNone(s: string, c: char)
    requires c !in s
    ensures Find(s, c) == |s|
  {
    assert forall k :: 0 <= k < |s| ==> s[k] in s;
  }

  lemma {:induction false} FindsFirst(part: string, rest: string, c: char)
    requires c !in part
    ensures Find(part + [c] + rest, c) == |part|
    decreases |part|
  {
    var s := part + [c] + rest;
    if part == "" {
      assert s[0] == c;
    } else {
      assert s[0] == part[0] && part[0] in part;
      assert s[1..] == part[1..] + [c] + rest;
      FindsFirst(part[1..], rest, c);
    }
  }

  lemma SplitsAt(part: string, rest: string, c: char)
    requires c !in part
    ensures Split(part + [c] + rest, c) == Some((part, rest))
  {
    FindsFirst(part, rest, c);
    var s := part + [c] + rest;
    assert s[..|part|] == part && s[|part| + 1..] == rest;
  }

  lemma {:induction false} JoinIsPlain(ids: seq<Id>)
    ensures '\t' !in Join(ids) && '\n' !in Join(ids)
    decreases |ids|
  {
    if ids != [] {
      HexReads(ids[0]);
      if |ids| > 1 { JoinIsPlain(ids[1..]); }
    }
  }

  lemma ParseFirst(s: string, k: nat, id: Id)
    requires k == Find(s, ',') && k > 0 && k % 2 == 0 && Unhex(s[..k]) == Some(id)
    ensures k == |s| ==> ParseIds(s) == Some([id])
    ensures k < |s| ==>
              ParseIds(s) == (var rest := ParseIds(s[k + 1..]); if rest.None? then None else Some([id] + rest.value))
  {
  }

  lemma OneIdReads(id: Id)
    requires id != []
    ensures ParseIds(Hex(id)) == Some([id])
  {
    var hex := Hex(id);
    HexReads(id);
    FindsNone(hex, ',');
    assert hex[..|hex|] == hex;
    ParseFirst(hex, |hex|, id);
  }

  lemma Cut(part: string, c: char, rest: string)
    ensures (part + [c] + rest)[..|part|] == part && (part + [c] + rest)[|part| + 1..] == rest
  {
  }

  lemma NextIdReads(id: Id, rest: string)
    requires id != []
    ensures ParseIds(Hex(id) + "," + rest) ==
              (var ids := ParseIds(rest); if ids.None? then None else Some([id] + ids.value))
  {
    HexReads(id);
    FindsFirst(Hex(id), rest, ',');
    Cut(Hex(id), ',', rest);
    ParseFirst(Hex(id) + "," + rest, |Hex(id)|, id);
  }

  lemma {:induction false} IdsRead(ids: seq<Id>)
    requires GoodIds(ids)
    ensures ParseIds(Join(ids)) == Some(ids)
    decreases |ids|
  {
    if |ids| == 1 {
      OneIdReads(ids[0]);
      assert [ids[0]] == ids;
    } else {
      NextIdReads(ids[0], Join(ids[1..]));
      IdsRead(ids[1..]);
      assert [ids[0]] + ids[1..] == ids;
    }
  }

  lemma RowReads(row: Row)
    requires GoodRow(row)
    ensures ParseLine(Line(row)) == Some(row) && '\n' !in Line(row)
  {
    var ids := Join(row.ids);
    JoinIsPlain(row.ids);
    assert Line(row) == row.entry + "\t" + (row.path + "\t" + ids);
    SplitsAt(row.entry, row.path + "\t" + ids, '\t');
    SplitsAt(row.path, ids, '\t');
    IdsRead(row.ids);
  }

  lemma {:induction false} RowsRead(rows: seq<Row>)
    requires GoodRows(rows)
    ensures ParseRows(Text(rows)) == Some(rows)
    decreases |rows|
  {
    if rows != [] {
      RowReads(rows[0]);
      SplitsAt(Line(rows[0]), Text(rows[1..]), '\n');
      RowsRead(rows[1..]);
      assert [rows[0]] + rows[1..] == rows;
    }
  }

  // --- A record reads back ---

  predicate GoodIdentity(identity: Identity) {
    identity.ids != [] ==>
      && Clean(identity.path) && GoodIds(identity.ids)
      && forall k :: 0 <= k < |identity.others| ==> Clean(identity.others[k].path) && GoodIds(identity.others[k].ids)
  }

  predicate Separate(book: seq<Item>) { forall j, k :: 0 <= j < k < |book| ==> book[j].entry != book[k].entry }

  /** Each entry once, and every field printable. */
  predicate GoodBook(book: seq<Item>) {
    Separate(book) && forall k :: 0 <= k < |book| && book[k].identity.ids != [] ==>
      Clean(book[k].entry) && GoodIdentity(book[k].identity)
  }

  /** The book as a map, without the entries that have no identifiers. */
  function Contents(book: seq<Item>): (m: Identities)
    ensures forall e :: e in m ==> exists k :: 0 <= k < |book| && book[k].entry == e
  {
    if book == [] then map[]
    else
      var rest := Contents(book[1..]);
      assert forall k :: 0 < k < |book| ==> book[k] == book[1..][k - 1];
      if book[0].identity.ids == [] then rest else rest[book[0].entry := book[0].identity]
  }

  lemma {:induction false} OtherRowsGood(entry: string, others: seq<Group>)
    requires Clean(entry) && forall k :: 0 <= k < |others| ==> Clean(others[k].path) && GoodIds(others[k].ids)
    ensures GoodRows(OtherRows(entry, others))
    decreases |others|
  {
    if others != [] { OtherRowsGood(entry, others[1..]); }
  }

  lemma {:induction false} RowsGood(book: seq<Item>)
    requires GoodBook(book)
    ensures GoodRows(Rows(book))
    decreases |book|
  {
    if book != [] {
      RowsGood(book[1..]);
      if book[0].identity.ids != [] { OtherRowsGood(book[0].entry, book[0].identity.others); }
    }
  }

  lemma {:induction false} InsertAllAppend(result: Identities, first: seq<Row>, rest: seq<Row>)
    ensures InsertAll(result, first + rest) == InsertAll(InsertAll(result, first), rest)
    decreases |first|
  {
    if first == [] {
      assert first + rest == rest;
    } else {
      assert (first + rest)[0] == first[0] && (first + rest)[1..] == first[1..] + rest;
      InsertAllAppend(Insert(result, first[0]), first[1..], rest);
    }
  }

  /** The further rows of an entry append its further paths. */
  lemma {:induction false} OthersInserted(result: Identities, entry: string, others: seq<Group>)
    requires entry in result
    ensures InsertAll(result, OtherRows(entry, others)) ==
              result[entry := result[entry].(others := result[entry].others + others)]
    decreases |others|
  {
    if others == [] {
      assert result[entry].others + [] == result[entry].others;
      assert result[entry := result[entry]] == result;
    } else {
      var next := Insert(result, Row(entry, others[0].path, others[0].ids));
      OthersInserted(next, entry, others[1..]);
      assert result[entry].others + [others[0]] + others[1..] == result[entry].others + others;
    }
  }

  lemma ItemInserted(result: Identities, item: Item)
    requires item.entry !in result
    ensures InsertAll(result, ItemRows(item)) == With(result, item)
  {
    if item.identity.ids != [] {
      var i := item.identity;
      var rows := OtherRows(item.entry, i.others);
      var next := result[item.entry := Identity(i.path, i.ids, [])];
      assert ItemRows(item)[0] == Row(item.entry, i.path, i.ids) && ItemRows(item)[1..] == rows;
      OthersInserted(next, item.entry, i.others);
      assert [] + i.others == i.others;
      assert next[item.entry := i] == result[item.entry := i];
    }
  }

  function With(result: Identities, item: Item): Identities {
    if item.identity.ids == [] then result else result[item.entry := item.identity]
  }

  lemma FirstApart(book: seq<Item>)
    requires Separate(book) && book != []
    ensures book[0].entry !in Contents(book[1..]) && Separate(book[1..])
  {
    assert forall k :: 0 <= k < |book[1..]| ==> book[1..][k] == book[k + 1];
  }

  lemma ContentsNext(result: Identities, book: seq<Item>)
    requires Separate(book) && book != []
    ensures With(result, book[0]) + Contents(book[1..]) == result + Contents(book)
  {
    FirstApart(book);
  }

  lemma {:induction false} BookInserted(result: Identities, book: seq<Item>)
    requires Separate(book) && forall k :: 0 <= k < |book| ==> book[k].entry !in result
    ensures InsertAll(result, Rows(book)) == result + Contents(book)
    decreases |book|
  {
    if book == [] {
      assert result + map[] == result;
    } else {
      var item := book[0];
      InsertAllAppend(result, ItemRows(item), Rows(book[1..]));
      ItemInserted(result, item);
      FirstApart(book);
      BookInserted(With(result, item), book[1..]);
      ContentsNext(result, book);
    }
  }

  lemma BodyReads(book: seq<Item>)
    requires GoodBook(book)
    ensures ParsedBody(Text(Rows(book))) == Contents(book)
  {
    RowsGood(book);
    RowsRead(Rows(book));
    BookInserted(map[], book);
    FromNothing(Contents(book));
  }

  lemma FromNothing(m: Identities)
    ensures map[] + m == m
  {
  }

  lemma Behind(header: string, body: string)
    ensures header <= header + body && (header + body)[|header|..] == body
  {
  }

  /** Parsing undoes printing: every record whose fields are not empty and hold no tab or newline reads back, up to
      entries without identifiers. */
  lemma ParseUndoesSerialize(book: seq<Item>)
    requires GoodBook(book)
    ensures Parsed(Serialized(book)) == Contents(book)
  {
    Behind(HEADER, Text(Rows(book)));
    BodyReads(book);
  }

  // --- The printer's loops ---

  lemma {:induction false} JoinAppend(ids: seq<Id>, id: Id)
    ensures Join(ids + [id]) == if ids == [] then Hex(id) else Join(ids) + "," + Hex(id)
    decreases |ids|
  {
    if ids != [] {
      assert (ids + [id])[0] == ids[0] && (ids + [id])[1..] == ids[1..] + [id];
      JoinAppend(ids[1..], id);
    }
  }

  method PrintIds(ids: seq<Id>) returns (s: string)
    ensures s == Join(ids)
  {
    s := "";
    for i := 0 to |ids|
      invariant s == Join(ids[..i])
    {
      JoinAppend(ids[..i], ids[i]);
      assert ids[..i] + [ids[i]] == ids[..i + 1];
      if i > 0 { s := s + ","; }
      s := s + Hex(ids[i]);
    }
    assert ids[..|ids|] == ids;
  }

  method PrintRow(row: Row) returns (s: string)
    ensures s == Line(row) + "\n"
  {
    var ids := PrintIds(row.ids);
    s := row.entry + "\t" + row.path + "\t" + ids + "\n";
  }

  lemma {:induction false} TextAppend(rows: seq<Row>, more: seq<Row>)
    ensures Text(rows + more) == Text(rows) + Text(more)
    decreases |rows|
  {
    if rows == [] {
      assert rows + more == more;
    } else {
      assert (rows + more)[0] == rows[0] && (rows + more)[1..] == rows[1..] + more;
      TextAppend(rows[1..], more);
    }
  }

  lemma OneRow(row: Row)
    ensures Text([row]) == Line(row) + "\n"
  {
    assert [row][1..] == [];
    assert Text([]) == "";
  }

  lemma {:induction false} OtherRowsAppend(entry: string, others: seq<Group>, g: Group)
    ensures OtherRows(entry, others + [g]) == OtherRows(entry, others) + [Row(entry, g.path, g.ids)]
    decreases |others|
  {
    if others == [] {
      assert [g][1..] == [];
    } else {
      assert (others + [g])[0] == others[0] && (others + [g])[1..] == others[1..] + [g];
      OtherRowsAppend(entry, others[1..], g);
    }
  }

  method PrintOthers(entry: string, others: seq<Group>) returns (s: string)
    ensures s == Text(OtherRows(entry, others))
  {
    s := "";
    for i := 0 to |others|
      invariant s == Text(OtherRows(entry, others[..i]))
    {
      var row := Row(entry, others[i].path, others[i].ids);
      OtherRowsAppend(entry, others[..i], others[i]);
      TextAppend(OtherRows(entry, others[..i]), [row]);
      OneRow(row);
      assert others[..i] + [others[i]] == others[..i + 1];
      var line := PrintRow(row);
      s := s + line;
    }
    assert others[..|others|] == others;
  }

  lemma {:induction false} RowsAppend(book: seq<Item>, item: Item)
    ensures Rows(book + [item]) == Rows(book) + ItemRows(item)
    decreases |book|
  {
    if book == [] {
      assert [item][1..] == [];
    } else {
      assert (book + [item])[0] == book[0] && (book + [item])[1..] == book[1..] + [item];
      RowsAppend(book[1..], item);
    }
  }

  method PrintItem(item: Item) returns (s: string)
    ensures s == Text(ItemRows(item))
  {
    if item.identity.ids == [] { return ""; }
    var row := Row(item.entry, item.identity.path, item.identity.ids);
    var first := PrintRow(row);
    var rest := PrintOthers(item.entry, item.identity.others);
    TextAppend([row], OtherRows(item.entry, item.identity.others));
    OneRow(row);
    s := first + rest;
  }

  lemma RowsNext(book: seq<Item>, i: nat)
    requires i < |book|
    ensures Text(Rows(book[..i])) + Text(ItemRows(book[i])) == Text(Rows(book[..i + 1]))
  {
    TextAppend(Rows(book[..i]), ItemRows(book[i]));
    assert Rows(book[..i + 1]) == Rows(book[..i]) + ItemRows(book[i]) by {
      RowsAppend(book[..i], book[i]);
      assert book[..i] + [book[i]] == book[..i + 1];
    }
  }

  lemma Associates(a: string, b: string, c: string)
    ensures a + b + c == a + (b + c)
  {
  }

  method PrintItems(start: string, book: seq<Item>) returns (text: string)
    ensures text == start + Text(Rows(book))
  {
    text := start;
    assert start + Text(Rows(book[..0])) == start;
    for i := 0 to |book|
      invariant text == start + Text(Rows(book[..i]))
    {
      RowsNext(book, i);
      var rows := PrintItem(book[i]);
      Associates(start, Text(Rows(book[..i])), rows);
      text := text + rows;
    }
    assert book[..|book|] == book;
  }

  /** Print the record. */
  method SerializeIdentities(book: seq<Item>) returns (text: string)
    ensures text == Serialized(book)
  {
    text := PrintItems(HEADER, book);
  }

  // --- The parser's loops ---

  lemma {:induction false} FindUnique(s: string, c: char, k: nat)
    requires k <= |s| && (k < |s| ==> s[k] == c) && forall j :: 0 <= j < k ==> s[j] != c
    ensures Find(s, c) == k
    decreases k
  {
    if k > 0 { FindUnique(s[1..], c, k - 1); }
  }

  method FindChar(s: string, c: char) returns (k: nat)
    ensures k == Find(s, c)
  {
    k := 0;
    while k < |s| && s[k] != c
      invariant k <= |s| && forall j :: 0 <= j < k ==> s[j] != c
    {
      k := k + 1;
    }
    FindUnique(s, c, k);
  }

  method SplitAt(s: string, c: char) returns (parts: Option<(string, string)>)
    ensures parts == Split(s, c)
  {
    var k := FindChar(s, c);
    parts := if k == |s| then None else Some((s[..k], s[k + 1..]));
  }

  function Prefixed<T>(first: seq<T>, rest: Option<seq<T>>): Option<seq<T>> {
    if rest.None? then None else Some(first + rest.value)
  }

  lemma PrefixedNext<T>(first: seq<T>, x: T, rest: Option<seq<T>>)
    ensures Prefixed(first + [x], rest) == Prefixed(first, Prefixed([x], rest))
  {
    if rest.Some? { assert first + [x] + rest.value == first + ([x] + rest.value); }
  }

  lemma PrefixedNone<T>(rest: Option<seq<T>>)
    ensures Prefixed([], rest) == rest
  {
    if rest.Some? { assert [] + rest.value == rest.value; }
  }

  /** Read the first identifier, up to a comma or the end. */
  method ReadId(s: string) returns (id: Option<Id>, comma: nat)
    ensures comma <= |s|
    ensures id.None? ==> ParseIds(s).None?
    ensures id.Some? && comma == |s| ==> ParseIds(s) == Some([id.value])
    ensures id.Some? && comma < |s| ==> ParseIds(s) == Prefixed([id.value], ParseIds(s[comma + 1..]))
  {
    comma := FindChar(s, ',');
    if comma == 0 || comma % 2 != 0 { return None, comma; }
    id := Unhex(s[..comma]);
  }

  /** Read identifiers separated by commas. */
  method ReadIds(s: string) returns (ids: Option<seq<Id>>)
    ensures ids == ParseIds(s)
  {
    var rest, read := s, [];
    ghost var expected := ParseIds(s);
    PrefixedNone(expected);
    while true
      invariant expected == Prefixed(read, ParseIds(rest))
      decreases |rest|
    {
      var id, comma := ReadId(rest);
      if id.None? { return None; }
      if comma == |rest| { return Some(read + [id.value]); }
      PrefixedNext(read, id.value, ParseIds(rest[comma + 1..]));
      read := read + [id.value];
      rest := rest[comma + 1..];
    }
  }

  /** Read one row: three fields, none empty, and no further tab. */
  method ReadLine(line: string) returns (row: Option<Row>)
    ensures row == ParseLine(line)
  {
    var entry := SplitAt(line, '\t');
    if entry.None? || entry.value.0 == "" { return None; }
    var path := SplitAt(entry.value.1, '\t');
    if path.None? || path.value.0 == "" { return None; }
    var third := FindChar(path.value.1, '\t');
    TabIn(path.value.1);
    if third != |path.value.1| { return None; }
    var ids := ReadIds(path.value.1);
    if ids.None? { return None; }
    row := Some(Row(entry.value.0, path.value.0, ids.value));
  }

  lemma TabIn(s: string)
    ensures '\t' in s <==> Find(s, '\t') != |s|
  {
    assert s[..|s|] == s;
  }

  /** The rows read so far, and those still ahead. */
  ghost predicate ReadSoFar(body: string, at: string, done: seq<Row>, result: Identities) {
    ParseRows(body) == Prefixed(done, ParseRows(at)) && result == InsertAll(map[], done)
  }

  lemma NextRow(body: string, at: string, done: seq<Row>, result: Identities, row: Row, rest: string)
    requires ReadSoFar(body, at, done, result) && at != "" && Split(at, '\n').Some? && rest == Split(at, '\n').value.1
    requires ParseLine(Split(at, '\n').value.0) == Some(row)
    ensures ReadSoFar(body, rest, done + [row], Insert(result, row))
  {
    PrefixedNext(done, row, ParseRows(rest));
    InsertAllAppend(map[], done, [row]);
    assert [row][1..] == [];
  }

  /** Read every row. */
  method ReadBody(body: string) returns (result: Identities)
    ensures result == ParsedBody(body)
  {
    var rest := body;
    result := map[];
    ghost var done: seq<Row> := [];
    PrefixedNone(ParseRows(body));
    while rest != ""
      invariant ReadSoFar(body, rest, done, result)
      decreases |rest|
    {
      var line := SplitAt(rest, '\n');
      if line.None? { return map[]; }
      var row := ReadLine(line.value.0);
      if row.None? { return map[]; }
      NextRow(body, rest, done, result, row.value, line.value.1);
      done := done + [row.value];
      result := Insert(result, row.value);
      rest := line.value.1;
    }
    assert done + [] == done;
  }

  /** Parse a record; a malformed one reads as empty. */
  method ParseIdentities(text: string) returns (result: Identities)
    ensures result == Parsed(text)
  {
    if !(HEADER <= text) { return map[]; }
    if text[|text| - 1] != '\n' {
      Unterminated(text[|HEADER|..]);
      return map[];
    }
    result := ReadBody(text[|HEADER|..]);
  }

  /** A body that does not end with a newline is malformed. */
  lemma {:induction false} Unterminated(body: string)
    requires body != "" && body[|body| - 1] != '\n'
    ensures ParseRows(body).None?
    decreases |body|
  {
    var line := Split(body, '\n');
    if line.Some? { Unterminated(line.value.1); }
  }
}
