/** The desktop catalog: the complete timeline read with two queries, and streamed
    from one joined cursor.  A query may return its rows in any order that its
    ORDER BY allows. */
module Catalog {
  import opened Options
  import opened Permutations

  const FETCH_SIZE := 256
  const MAX_OFFSET := 2_000_000
  const MAX_LIMIT := 4096

  /** A row of Media.  Keys, dates and paths are numbered in their text order, and
      `captured` is 0 when the date is unknown. */
  datatype Media = Media(key: nat, captured: nat, details: string)

  /** A row of Occurrence. */
  datatype Alias = Alias(key: nat, sourceId: nat, source: string, path: nat)

  datatype Item = Item(media: Media, paths: seq<nat>, source: string)

  /** A row of the left join. */
  datatype Row = Row(media: Media, alias: Option<Alias>)

  // ---------- what the queries may return ----------

  predicate Before(ascending: bool, a: Media, b: Media) {
    if (a.captured == 0) != (b.captured == 0) then a.captured != 0
    else if a.captured != b.captured then (a.captured < b.captured) == ascending
    else a.key < b.key
  }

  function PathOf(row: Row): nat {
    if row.alias.Some? then row.alias.value.path else 0
  }

  ghost predicate UniqueKeys(media: seq<Media>) {
    forall i, j :: 0 <= i < j < |media| ==> media[i].key != media[j].key
  }

  function Chosen(where: set<nat>): Media -> Option<Media> {
    (m: Media) => if m.key in where then Some(m) else None
  }

  function OwnPath(key: nat): Alias -> Option<nat> {
    (a: Alias) => if a.key == key then Some(a.path) else None
  }

  function RowPath(key: nat): Row -> Option<nat> {
    (row: Row) => if row.media.key == key && row.alias.Some? then Some(row.alias.value.path) else None
  }

  /** Media rows in timeline order. */
  ghost predicate Timeline(ascending: bool, rows: seq<Media>) {
    forall i, j :: 0 <= i < j < |rows| ==> Before(ascending, rows[i], rows[j])
  }

  ghost predicate MediaQuery(media: seq<Media>, where: set<nat>, ascending: bool, rows: seq<Media>) {
    multiset(rows) == multiset(Collect(Chosen(where), media)) && Timeline(ascending, rows)
  }

  function InKeys(keys: set<nat>): Alias -> Option<Alias> {
    (a: Alias) => if a.key in keys then Some(a) else None
  }

  function AliasesOf(media: seq<Media>, aliases: seq<Alias>, where: set<nat>): seq<Alias> {
    var keys := set m | m in media && m.key in where :: m.key;
    Collect(InKeys(keys), aliases)
  }

  ghost predicate AliasOrder(rows: seq<Alias>) {
    forall i, j :: 0 <= i < j < |rows| ==>
      rows[i].key < rows[j].key || (rows[i].key == rows[j].key && rows[i].path <= rows[j].path)
  }

  ghost predicate AliasQuery(media: seq<Media>, aliases: seq<Alias>, where: set<nat>, rows: seq<Alias>) {
    multiset(rows) == multiset(AliasesOf(media, aliases, where)) && AliasOrder(rows)
  }

  function Joined(m: Media): Alias -> Option<Row> {
    (a: Alias) => if a.key == m.key then Some(Row(m, Some(a))) else None
  }

  function RowsFor(m: Media, aliases: seq<Alias>): seq<Row> {
    var own := Collect(Joined(m), aliases);
    if own == [] then [Row(m, None)] else own
  }

  function LeftJoin(media: seq<Media>, aliases: seq<Alias>): seq<Row> {
    if media == [] then []
    else LeftJoin(media[..|media| - 1], aliases) + RowsFor(media[|media| - 1], aliases)
  }

  ghost predicate RowOrder(ascending: bool, rows: seq<Row>) {
    forall i, j :: 0 <= i < j < |rows| ==>
      Before(ascending, rows[i].media, rows[j].media)
          || (rows[i].media == rows[j].media && PathOf(rows[i]) <= PathOf(rows[j]))
  }

  ghost predicate JoinQuery(media: seq<Media>, aliases: seq<Alias>, where: set<nat>, ascending: bool, rows: seq<Row>) {
    multiset(rows) == multiset(LeftJoin(Collect(Chosen(where), media), aliases)) && RowOrder(ascending, rows)
  }

  // ---------- two queries ----------

  function FirstSource(aliases: seq<Alias>, key: nat): string {
    if aliases == [] then ""
    else if aliases[0].key == key then aliases[0].source
    else FirstSource(aliases[1..], key)
  }

  function CatalogItem(m: Media, aliases: seq<Alias>): Item {
    Item(m, Collect(OwnPath(m.key), aliases), FirstSource(aliases, m.key))
  }

  function CatalogItems(rows: seq<Media>, aliases: seq<Alias>): seq<Item> {
    seq(|rows|, i requires 0 <= i < |rows| => CatalogItem(rows[i], aliases))
  }

  datatype Group = Group(source: string, paths: seq<nat>)

  /** The dictionary after some aliases. */
  ghost predicate Grouped(aliases: seq<Alias>, groups: map<nat, Group>) {
    forall key: nat ::
      if key in groups
      then groups[key] == Group(FirstSource(aliases, key), Collect(OwnPath(key), aliases)) && !Absent(aliases, key)
      else Absent(aliases, key)
  }

  ghost predicate Absent(aliases: seq<Alias>, key: nat) {
    forall a :: a in aliases ==> a.key != key
  }

  lemma {:induction false} FirstSourceSnoc(aliases: seq<Alias>, a: Alias, key: nat)
    ensures FirstSource(aliases + [a], key)
         == if !Absent(aliases, key) then FirstSource(aliases, key) else if a.key == key then a.source else ""
  {
    if aliases == [] {
      assert [] + [a] == [a];
    } else {
      FirstSourceSnoc(aliases[1..], a, key);
      assert (aliases + [a])[1..] == aliases[1..] + [a];
      assert aliases == [aliases[0]] + aliases[1..];
    }
  }

  lemma {:induction false} AbsentKey(aliases: seq<Alias>, key: nat)
    requires Absent(aliases, key)
    ensures FirstSource(aliases, key) == "" && Collect(OwnPath(key), aliases) == []
  {
    CollectNone(OwnPath(key), aliases);
    if aliases != [] {
      forall a | a in aliases[1..] ensures a.key != key { assert a in aliases; }
      AbsentKey(aliases[1..], key);
    }
  }

  lemma GroupOne(seen: seq<Alias>, a: Alias, groups: map<nat, Group>)
    requires Grouped(seen, groups)
    ensures var group := if a.key in groups then groups[a.key] else Group(a.source, []);
            Grouped(seen + [a], groups[a.key := group.(paths := group.paths + [a.path])])
  {
    var group := if a.key in groups then groups[a.key] else Group(a.source, []);
    var after := groups[a.key := group.(paths := group.paths + [a.path])];
    forall key: nat
      ensures if key in after
              then after[key] == Group(FirstSource(seen + [a], key), Collect(OwnPath(key), seen + [a]))
                  && !Absent(seen + [a], key)
              else Absent(seen + [a], key)
    {
      FirstSourceSnoc(seen, a, key);
      assert (seen + [a])[..|seen|] == seen;
      if key !in groups { AbsentKey(seen, key); }
    }
  }

  /** The aliases of each key, in query order, with the first one's source. */
  method GroupAliases(aliases: seq<Alias>) returns (groups: map<nat, Group>)
    ensures Grouped(aliases, groups)
  {
    groups := map[];
    for i := 0 to |aliases|
      invariant Grouped(aliases[..i], groups)
    {
      var a := aliases[i];
      GroupOne(aliases[..i], a, groups);
      assert aliases[..i + 1] == aliases[..i] + [a];
      var group := if a.key in groups then groups[a.key] else Group(a.source, []);
      groups := groups[a.key := group.(paths := group.paths + [a.path])];
    }
    assert aliases[..|aliases|] == aliases;
  }

  method CatalogOf(rows: seq<Media>, aliases: seq<Alias>) returns (items: seq<Item>)
    ensures items == CatalogItems(rows, aliases)
  {
    var groups := GroupAliases(aliases);
    items := [];
    for i := 0 to |rows|
      invariant items == CatalogItems(rows[..i], aliases)
    {
      var m := rows[i];
      var group := if m.key in groups then groups[m.key] else Group("", []);
      if m.key !in groups {
        AbsentKey(aliases, m.key);
      }
      items := items + [Item(m, group.paths, group.source)];
    }
    assert rows[..|rows|] == rows;
  }

  // ---------- one joined cursor ----------

  function Opening(row: Row): Item {
    Item(row.media, if row.alias.Some? then [row.alias.value.path] else [],
         if row.alias.Some? then row.alias.value.source else "")
  }

  function Extended(item: Item, row: Row): Item {
    item.(paths := item.paths + if row.alias.Some? then [row.alias.value.path] else [])
  }

  /** The items of the rows read so far, the last one still open. */
  function StreamItems(rows: seq<Row>): seq<Item> {
    if rows == [] then []
    else
      var before, row := StreamItems(rows[..|rows| - 1]), rows[|rows| - 1];
      if before == [] || before[|before| - 1].media.key != row.media.key then before + [Opening(row)]
      else before[..|before| - 1] + [Extended(before[|before| - 1], row)]
  }

  /** What is emitted, and the item still open. */
  ghost predicate Streamed(rows: seq<Row>, emitted: seq<Item>, item: Option<Item>) {
    StreamItems(rows) == emitted + if item.Some? then [item.value] else []
  }

  method ReadRow(ghost seen: seq<Row>, row: Row, emitted0: seq<Item>, open: Option<Item>)
    returns (emitted: seq<Item>, item: Option<Item>)
    requires Streamed(seen, emitted0, open) && (open.None? ==> emitted0 == [])
    ensures Streamed(seen + [row], emitted, item) && item.Some?
  {
    ghost var before := StreamItems(seen);
    assert (seen + [row])[..|seen|] == seen && StreamItems(seen + [row])
        == if before == [] || before[|before| - 1].media.key != row.media.key then before + [Opening(row)]
           else before[..|before| - 1] + [Extended(before[|before| - 1], row)];
    if open.Some? {
      assert before[..|before| - 1] == emitted0 && open.value.paths + [] == open.value.paths;
    }
    emitted, item := emitted0, open;
    if item.None? || item.value.media.key != row.media.key {
      if item.Some? { emitted := emitted + [item.value]; }
      item := Some(Item(row.media, [], if row.alias.Some? then row.alias.value.source else ""));
    }
    if row.alias.Some? {
      assert [] + [row.alias.value.path] == [row.alias.value.path];
      item := Some(item.value.(paths := item.value.paths + [row.alias.value.path]));
    }
    if before == [] || before[|before| - 1].media.key != row.media.key {
      assert emitted == before && item.value == Opening(row);
    } else {
      assert emitted == before[..|before| - 1] && item.value == Extended(before[|before| - 1], row);
    }
  }

  method ReadBatch(ghost seen: seq<Row>, batch: seq<Row>, emitted0: seq<Item>, open: Option<Item>)
    returns (emitted: seq<Item>, item: Option<Item>)
    requires Streamed(seen, emitted0, open) && (open.None? ==> emitted0 == [])
    ensures Streamed(seen + batch, emitted, item) && (item.None? ==> emitted == [])
  {
    emitted, item := emitted0, open;
    ghost var done := seen;
    for k := 0 to |batch|
      invariant done == seen + batch[..k]
      invariant Streamed(done, emitted, item) && (item.None? ==> emitted == [])
    {
      emitted, item := ReadRow(done, batch[k], emitted, item);
      PrefixSnoc(seen, batch, k);
      done := done + [batch[k]];
    }
    assert batch[..|batch|] == batch;
  }

  lemma PrefixSnoc(seen: seq<Row>, batch: seq<Row>, k: nat)
    requires k < |batch|
    ensures seen + batch[..k + 1] == seen + batch[..k] + [batch[k]]
  {
  }

  /** Read the cursor in fetches of any size up to 256. */
  method Stream(rows: seq<Row>, total: nat) returns (emitted: seq<Item>, consistent: bool)
    ensures emitted == StreamItems(rows) && (consistent <==> |emitted| == total)
  {
    emitted := [];
    var rest, item: Option<Item> := rows, None;
    ghost var seen: seq<Row> := [];
    while rest != []
      invariant rows == seen + rest
      invariant Streamed(seen, emitted, item) && (item.None? ==> emitted == [])
    {
      var size: nat :| 1 <= size <= FETCH_SIZE && size <= |rest|;
      emitted, item := ReadBatch(seen, rest[..size], emitted, item);
      seen, rest := seen + rest[..size], rest[size..];
    }
    assert rows == seen;
    if item.Some? { emitted := emitted + [item.value]; }
    consistent := |emitted| == total;
  }

  // ---------- one page ----------

  datatype Page = Page(items: seq<Media>, total: nat, nextOffset: nat, hasMore: bool)

  /** LIMIT and OFFSET over the timeline; out-of-range bounds are refused. */
  function PageOf(rows: seq<Media>, offset: int, limit: int): (p: Option<Page>)
    ensures p.Some? && p.value.hasMore ==> offset < p.value.nextOffset < |rows|
  {
    if !(0 <= offset <= MAX_OFFSET) || !(1 <= limit <= MAX_LIMIT) then None
    else
      var items := if offset >= |rows| then []
                   else if offset + limit >= |rows| then rows[offset..] else rows[offset..offset + limit];
      Some(Page(items, |rows|, offset + |items|, offset + |items| < |rows|))
  }
}
