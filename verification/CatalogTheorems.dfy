/** The streamed catalog is the catalog of the two queries, and pages follow each
    other through the same timeline. */
module CatalogTheorems {
  import opened Options
  import opened Permutations
  import opened Catalog

  // ---------- grouping consecutive rows ----------

  function RowSource(rows: seq<Row>, key: nat): string {
    if rows == [] then ""
    else if rows[0].media.key == key then Opening(rows[0]).source
    else RowSource(rows[1..], key)
  }

  ghost predicate KeysIdentify(rows: seq<Row>) {
    forall r, s :: r in rows && s in rows && r.media.key == s.media.key ==> r.media == s.media
  }

  ghost predicate HasMedia(rows: seq<Row>, m: Media) {
    exists r :: r in rows && r.media == m
  }

  /** What each item of the stream holds. */
  ghost predicate ItemFits(rows: seq<Row>, item: Item) {
    && HasMedia(rows, item.media)
    && item.paths == Collect(RowPath(item.media.key), rows)
    && item.source == RowSource(rows, item.media.key)
  }

  ghost predicate StreamFits(ascending: bool, rows: seq<Row>, items: seq<Item>) {
    && (rows != [] ==> items != [] && items[|items| - 1].media == rows[|rows| - 1].media)
    && (forall i, j :: 0 <= i < j < |items| ==> Before(ascending, items[i].media, items[j].media))
    && (forall i :: 0 <= i < |items| ==> ItemFits(rows, items[i]))
    && (forall r :: r in rows ==> HasItem(items, r.media))
  }

  ghost predicate HasItem(items: seq<Item>, m: Media) {
    exists i :: 0 <= i < |items| && items[i].media == m
  }

  lemma {:induction false} RowSourceSnoc(rows: seq<Row>, row: Row, key: nat)
    ensures RowSource(rows + [row], key)
         == if exists r :: r in rows && r.media.key == key then RowSource(rows, key)
            else if row.media.key == key then Opening(row).source else ""
  {
    if rows == [] {
      assert [] + [row] == [row];
    } else {
      RowSourceSnoc(rows[1..], row, key);
      assert (rows + [row])[1..] == rows[1..] + [row];
      assert rows == [rows[0]] + rows[1..];
      if rows[0].media.key == key { assert rows[0] in rows; }
    }
  }

  lemma FitsLater(rows: seq<Row>, row: Row, item: Item)
    requires ItemFits(rows, item) && row.media.key != item.media.key
    ensures ItemFits(rows + [row], item)
  {
    RowSourceSnoc(rows, row, item.media.key);
    assert (rows + [row])[..|rows|] == rows;
    var r :| r in rows && r.media == item.media;
    assert r in rows + [row];
  }

  lemma FitsExtended(rows: seq<Row>, row: Row, item: Item)
    requires ItemFits(rows, item) && row.media == item.media
    ensures ItemFits(rows + [row], Extended(item, row))
  {
    RowSourceSnoc(rows, row, item.media.key);
    assert (rows + [row])[..|rows|] == rows;
    assert row in rows + [row];
  }

  lemma FitsOpened(rows: seq<Row>, row: Row)
    requires forall r :: r in rows ==> r.media.key != row.media.key
    ensures ItemFits(rows + [row], Opening(row))
  {
    RowSourceSnoc(rows, row, row.media.key);
    assert (rows + [row])[..|rows|] == rows;
    assert row in rows + [row];
    CollectNone(RowPath(row.media.key), rows);
  }

  /** In timeline order a row opens a new item only for a new key. */
  lemma NewKey(ascending: bool, rows: seq<Row>, row: Row)
    requires RowOrder(ascending, rows + [row]) && KeysIdentify(rows + [row])
    requires rows != [] && rows[|rows| - 1].media.key != row.media.key
    ensures forall r :: r in rows ==> r.media.key != row.media.key
  {
    var all, n := rows + [row], |rows|;
    assert all[n - 1] == rows[n - 1] && all[n] == row;
    assert Before(ascending, all[n - 1].media, all[n].media);
    forall r | r in rows ensures r.media.key != row.media.key {
      var i :| 0 <= i < n && rows[i] == r;
      assert all[i] == r && r in all && row in all;
      if i < n - 1 { assert Before(ascending, all[i].media, all[n - 1].media) || all[i].media == all[n - 1].media; }
    }
  }

  lemma {:induction false} StreamShape(ascending: bool, rows: seq<Row>)
    requires RowOrder(ascending, rows) && KeysIdentify(rows)
    ensures StreamFits(ascending, rows, StreamItems(rows))
  {
    if rows != [] {
      var front, row := rows[..|rows| - 1], rows[|rows| - 1];
      assert rows == front + [row];
      StreamShape(ascending, front);
      StreamStep(ascending, front, row);
    }
  }

  /** The items after one more row. */
  function NextItems(before: seq<Item>, row: Row): seq<Item> {
    if before == [] || before[|before| - 1].media.key != row.media.key then before + [Opening(row)]
    else before[..|before| - 1] + [Extended(before[|before| - 1], row)]
  }

  lemma StreamItemsSnoc(front: seq<Row>, row: Row)
    ensures StreamItems(front + [row]) == NextItems(StreamItems(front), row)
  {
    assert (front + [row])[..|front|] == front && (front + [row])[|front|] == row;
  }

  lemma FirstStep(ascending: bool, rows: seq<Row>, items: seq<Item>)
    requires |rows| == 1 && |items| == 1 && items[0] == Opening(rows[0])
    ensures StreamFits(ascending, rows, items)
  {
    FitsOpened([], rows[0]);
    assert rows == [] + [rows[0]];
    assert items[0].media == rows[0].media;
  }

  lemma ItemsStep(ascending: bool, front: seq<Row>, row: Row, before: seq<Item>)
    requires RowOrder(ascending, front + [row]) && KeysIdentify(front + [row])
    requires StreamFits(ascending, front, before) && (front == [] ==> before == [])
    ensures StreamFits(ascending, front + [row], NextItems(before, row))
  {
    if front == [] {
      FirstStep(ascending, front + [row], before + [Opening(row)]);
    } else if before[|before| - 1].media.key != row.media.key {
      OpenStep(ascending, front, row, before);
    } else {
      ExtendStep(ascending, front, row, before);
    }
  }

  lemma StreamStep(ascending: bool, front: seq<Row>, row: Row)
    requires RowOrder(ascending, front + [row]) && KeysIdentify(front + [row])
    requires StreamFits(ascending, front, StreamItems(front))
    ensures StreamFits(ascending, front + [row], StreamItems(front + [row]))
  {
    ItemsStep(ascending, front, row, StreamItems(front));
    StreamItemsSnoc(front, row);
  }

  lemma OpenFitsAll(front: seq<Row>, row: Row, before: seq<Item>)
    requires forall i :: 0 <= i < |before| ==> ItemFits(front, before[i])
    requires forall r :: r in front ==> r.media.key != row.media.key
    ensures forall i :: 0 <= i < |before| ==> ItemFits(front + [row], before[i])
  {
    forall i | 0 <= i < |before| ensures ItemFits(front + [row], before[i]) {
      OpenFits(front, row, before[i]);
    }
  }

  lemma OpenFits(front: seq<Row>, row: Row, item: Item)
    requires ItemFits(front, item) && forall r :: r in front ==> r.media.key != row.media.key
    ensures ItemFits(front + [row], item)
  {
    var r :| r in front && r.media == item.media;
    FitsLater(front, row, item);
  }

  lemma CoveredLater(front: seq<Row>, row: Row, before: seq<Item>, last: Item)
    requires forall r :: r in front ==> HasItem(before, r.media)
    requires last.media == row.media
    ensures forall r :: r in front + [row] ==> HasItem(before + [last], r.media)
  {
    var after := before + [last];
    forall r | r in front + [row] ensures HasItem(after, r.media) {
      if r in front {
        var i :| 0 <= i < |before| && before[i].media == r.media;
        assert after[i].media == r.media;
      } else {
        assert after[|before|].media == r.media;
      }
    }
  }

  lemma BeforeLast(ascending: bool, before: seq<Item>, m: Media)
    requires before != [] && forall i, j :: 0 <= i < j < |before| ==>
             Before(ascending, before[i].media, before[j].media)
    requires Before(ascending, before[|before| - 1].media, m)
    ensures forall i :: 0 <= i < |before| ==> Before(ascending, before[i].media, m)
  {
    forall i | 0 <= i < |before| ensures Before(ascending, before[i].media, m) {
      if i < |before| - 1 { assert Before(ascending, before[i].media, before[|before| - 1].media); }
    }
  }

  lemma {:induction false} OpenStep(ascending: bool, front: seq<Row>, row: Row, before: seq<Item>)
    requires RowOrder(ascending, front + [row]) && KeysIdentify(front + [row]) && front != []
    requires StreamFits(ascending, front, before) && before[|before| - 1].media.key != row.media.key
    ensures StreamFits(ascending, front + [row], before + [Opening(row)])
  {
    var after, rows := before + [Opening(row)], front + [row];
    NewKey(ascending, front, row);
    FitsOpened(front, row);
    assert rows[|front| - 1] == front[|front| - 1] && rows[|front|] == row;
    BeforeLast(ascending, before, row.media);
    CoveredLater(front, row, before, Opening(row));
    OpenFitsAll(front, row, before);
    assert after[|before|] == Opening(row) && forall i :: 0 <= i < |before| ==> after[i] == before[i];
  }

  lemma ExtendFits(ascending: bool, front: seq<Row>, row: Row, before: seq<Item>, i: nat)
    requires KeysIdentify(front + [row]) && StreamFits(ascending, front, before) && i < |before| - 1
    requires before[|before| - 1].media == row.media
    ensures ItemFits(front + [row], before[i])
  {
    assert row in front + [row];
    DifferentKey(ascending, front + [row], before[i].media, row.media, front);
    FitsLater(front, row, before[i]);
  }

  lemma LastMedia(front: seq<Row>, row: Row, before: seq<Item>)
    requires KeysIdentify(front + [row]) && front != [] && before != []
    requires before[|before| - 1].media == front[|front| - 1].media && before[|before| - 1].media.key == row.media.key
    ensures before[|before| - 1].media == row.media
  {
    assert front[|front| - 1] in front + [row] && row in front + [row];
  }

  lemma ExtendFitsAll(ascending: bool, front: seq<Row>, row: Row, before: seq<Item>, after: seq<Item>)
    requires KeysIdentify(front + [row]) && before != [] && before[|before| - 1].media == row.media
    requires StreamFits(ascending, front, before)
    requires after == before[..|before| - 1] + [Extended(before[|before| - 1], row)]
    ensures forall i :: 0 <= i < |after| ==> ItemFits(front + [row], after[i])
  {
    FitsExtended(front, row, before[|before| - 1]);
    forall i | 0 <= i < |before| - 1 ensures ItemFits(front + [row], before[i]) {
      ExtendFits(ascending, front, row, before, i);
    }
  }

  lemma ExtendStep(ascending: bool, front: seq<Row>, row: Row, before: seq<Item>)
    requires KeysIdentify(front + [row]) && front != []
    requires StreamFits(ascending, front, before) && before[|before| - 1].media.key == row.media.key
    ensures StreamFits(ascending, front + [row], before[..|before| - 1] + [Extended(before[|before| - 1], row)])
  {
    var after := before[..|before| - 1] + [Extended(before[|before| - 1], row)];
    LastMedia(front, row, before);
    ExtendFitsAll(ascending, front, row, before, after);
    ExtendCovers(front, row, before, after);
  }

  lemma ExtendCovers(front: seq<Row>, row: Row, before: seq<Item>, after: seq<Item>)
    requires before != [] && after == before[..|before| - 1] + [Extended(before[|before| - 1], row)]
    requires before[|before| - 1].media == row.media && forall r :: r in front ==> HasItem(before, r.media)
    ensures forall r :: r in front + [row] ==> HasItem(after, r.media)
  {
    forall r | r in front + [row] ensures HasItem(after, r.media) {
      if r in front {
        var i :| 0 <= i < |before| && before[i].media == r.media;
        assert after[i].media == r.media;
      } else {
        assert after[|before| - 1].media == r.media;
      }
    }
  }

  lemma DifferentKey(ascending: bool, rows: seq<Row>, m: Media, last: Media, front: seq<Row>)
    requires KeysIdentify(rows) && HasMedia(front, m) && HasMedia(rows, last) && front <= rows
    requires Before(ascending, m, last)
    ensures m.key != last.key
  {
    var r :| r in front && r.media == m;
    var s :| s in rows && s.media == last;
    assert r in rows;
  }

  // ---------- one timeline ----------

  lemma {:induction false} TimelineUnique(ascending: bool, a: seq<Media>, b: seq<Media>)
    requires Timeline(ascending, a) && Timeline(ascending, b) && forall m :: m in a <==> m in b
    ensures a == b
    decreases |a|
  {
    EmptyTogether(a, b);
    if a != [] {
      SameLast(ascending, a, b);
      var a', b', x := a[..|a| - 1], b[..|b| - 1], a[|a| - 1];
      forall m ensures m in a' <==> m in b' {
        NotLast(ascending, a, m);
        NotLast(ascending, b, m);
      }
      TimelineUnique(ascending, a', b');
      assert a == a' + [x] && b == b' + [x];
    }
  }

  lemma EmptyTogether<T>(a: seq<T>, b: seq<T>)
    requires forall x :: x in a <==> x in b
    ensures a == [] <==> b == []
  {
    if a != [] { assert a[0] in b; }
    if b != [] { assert b[0] in a; }
  }

  lemma SameLast(ascending: bool, a: seq<Media>, b: seq<Media>)
    requires Timeline(ascending, a) && Timeline(ascending, b) && a != [] && b != [] && forall m :: m in a <==> m in b
    ensures a[|a| - 1] == b[|b| - 1]
  {
    var x, y := a[|a| - 1], b[|b| - 1];
    assert x in a && y in b;
    var i :| 0 <= i < |b| && b[i] == x;
    var j :| 0 <= j < |a| && a[j] == y;
    assert i == |b| - 1 || Before(ascending, x, y);
    assert j == |a| - 1 || Before(ascending, y, x);
  }

  lemma NotLast(ascending: bool, a: seq<Media>, m: Media)
    requires Timeline(ascending, a) && a != []
    ensures m in a[..|a| - 1] <==> m in a && m != a[|a| - 1]
  {
    assert a == a[..|a| - 1] + [a[|a| - 1]];
    if m in a[..|a| - 1] {
      var i :| 0 <= i < |a| - 1 && a[i] == m;
      assert Before(ascending, a[i], a[|a| - 1]);
    }
  }

  // ---------- the join ----------

  lemma {:induction false} JoinMembers(chosen: seq<Media>, aliases: seq<Alias>, row: Row)
    ensures row in LeftJoin(chosen, aliases) <==> row.media in chosen && row in RowsFor(row.media, aliases)
  {
    if chosen != [] {
      var front, last := chosen[..|chosen| - 1], chosen[|chosen| - 1];
      assert chosen == front + [last];
      JoinMembers(front, aliases, row);
      RowsForMedia(last, aliases);
    }
  }

  lemma RowsForMedia(m: Media, aliases: seq<Alias>)
    ensures RowsFor(m, aliases) != [] && forall row :: row in RowsFor(m, aliases) ==> row.media == m
  {
    CollectMembers(Joined(m), aliases);
  }

  /** The paths of a key in the rows of one media item. */
  lemma JoinedSnoc(m: Media, front: seq<Alias>, last: Alias)
    ensures Collect(Joined(m), front + [last])
         == if last.key == m.key then Collect(Joined(m), front) + [Row(m, Some(last))] else Collect(Joined(m), front)
  {
    CollectSnoc(Joined(m), front, last);
  }

  lemma OwnSnoc(key: nat, front: seq<Alias>, last: Alias)
    ensures Collect(OwnPath(key), front + [last])
         == if last.key == key then Collect(OwnPath(key), front) + [last.path] else Collect(OwnPath(key), front)
  {
    CollectSnoc(OwnPath(key), front, last);
  }

  lemma RowPathSnoc(key: nat, rows: seq<Row>, m: Media, a: Alias)
    ensures Collect(RowPath(key), rows + [Row(m, Some(a))])
         == if m.key == key then Collect(RowPath(key), rows) + [a.path] else Collect(RowPath(key), rows)
  {
    CollectSnoc(RowPath(key), rows, Row(m, Some(a)));
  }

  lemma JoinedOne(m: Media, front: seq<Alias>, last: Alias, key: nat)
    requires Collect(RowPath(key), Collect(Joined(m), front))
             == if m.key == key then Collect(OwnPath(key), front) else []
    ensures Collect(RowPath(key), Collect(Joined(m), front + [last]))
         == if m.key == key then Collect(OwnPath(key), front + [last]) else []
  {
    JoinedSnoc(m, front, last);
    OwnSnoc(key, front, last);
    RowPathSnoc(key, Collect(Joined(m), front), m, last);
  }

  lemma {:induction false} JoinedPaths(m: Media, aliases: seq<Alias>, key: nat)
    ensures Collect(RowPath(key), Collect(Joined(m), aliases))
            == if m.key == key then Collect(OwnPath(key), aliases) else []
  {
    if aliases != [] {
      var front, last := aliases[..|aliases| - 1], aliases[|aliases| - 1];
      JoinedPaths(m, front, key);
      JoinedOne(m, front, last, key);
      LastApart(aliases);
    }
  }

  lemma RowsForPaths(m: Media, aliases: seq<Alias>, key: nat)
    ensures Collect(RowPath(key), RowsFor(m, aliases)) == if m.key == key then Collect(OwnPath(key), aliases) else []
  {
    JoinedPaths(m, aliases, key);
    CollectOne(RowPath(key), Row(m, None));
  }

  /** One more media row adds its own paths, or nothing. */
  lemma JoinSnoc(front: seq<Media>, last: Media, aliases: seq<Alias>, key: nat)
    ensures Collect(RowPath(key), LeftJoin(front + [last], aliases))
         == if last.key == key then Collect(RowPath(key), LeftJoin(front, aliases)) + Collect(OwnPath(key), aliases)
            else Collect(RowPath(key), LeftJoin(front, aliases))
  {
    var before := Collect(RowPath(key), LeftJoin(front, aliases));
    assert before + [] == before;
    assert (front + [last])[..|front|] == front;
    CollectConcat(RowPath(key), LeftJoin(front, aliases), RowsFor(last, aliases));
    RowsForPaths(last, aliases, key);
  }

  lemma OtherKeys(front: seq<Media>, last: Media)
    requires UniqueKeys(front + [last])
    ensures UniqueKeys(front) && forall i :: 0 <= i < |front| ==> front[i].key != last.key
  {
    forall i, j | 0 <= i < j < |front| ensures front[i].key != front[j].key {
      assert (front + [last])[i] == front[i] && (front + [last])[j] == front[j];
    }
    forall i | 0 <= i < |front| ensures front[i].key != last.key {
      assert (front + [last])[i] == front[i] && (front + [last])[|front|] == last;
    }
  }

  lemma {:induction false} JoinPaths(chosen: seq<Media>, aliases: seq<Alias>, m: Media)
    requires UniqueKeys(chosen) && m in chosen
    ensures Collect(RowPath(m.key), LeftJoin(chosen, aliases)) == Collect(OwnPath(m.key), aliases)
  {
    var front, last := chosen[..|chosen| - 1], chosen[|chosen| - 1];
    assert chosen == front + [last];
    JoinSnoc(front, last, aliases, m.key);
    OtherKeys(front, last);
    if m == last {
      OtherPaths(front, aliases, m.key);
    } else {
      JoinPaths(front, aliases, m);
    }
  }

  lemma {:induction false} OtherPaths(chosen: seq<Media>, aliases: seq<Alias>, key: nat)
    requires forall i :: 0 <= i < |chosen| ==> chosen[i].key != key
    ensures Collect(RowPath(key), LeftJoin(chosen, aliases)) == []
  {
    if chosen != [] {
      var front, last := chosen[..|chosen| - 1], chosen[|chosen| - 1];
      assert chosen == front + [last];
      OtherPaths(front, aliases, key);
      JoinSnoc(front, last, aliases, key);
    }
  }

  function Identity(): nat -> int {
    (n: nat) => n
  }

  lemma EarlierPaths(ascending: bool, front: seq<Row>, last: Row, key: nat)
    requires RowOrder(ascending, front + [last]) && KeysIdentify(front + [last]) && RowPath(key)(last).Some?
    ensures forall p :: p in Collect(RowPath(key), front) ==> p <= PathOf(last)
  {
    var rows := front + [last];
    CollectMembers(RowPath(key), front);
    forall p | p in Collect(RowPath(key), front) ensures p <= PathOf(last) {
      var r :| r in front && RowPath(key)(r) == Some(p);
      var i :| 0 <= i < |front| && front[i] == r;
      assert rows[i] == r && rows[|front|] == last && r in rows && last in rows;
    }
  }

  lemma FewerRows(ascending: bool, front: seq<Row>, last: Row)
    requires RowOrder(ascending, front + [last]) && KeysIdentify(front + [last])
    ensures RowOrder(ascending, front) && KeysIdentify(front)
  {
    var rows := front + [last];
    forall i, j | 0 <= i < j < |front|
      ensures Before(ascending, front[i].media, front[j].media)
              || (front[i].media == front[j].media && PathOf(front[i]) <= PathOf(front[j]))
    {
      assert rows[i] == front[i] && rows[j] == front[j];
    }
    forall r | r in front ensures r in rows {}
  }

  lemma {:induction false} RowPathsSorted(ascending: bool, rows: seq<Row>, key: nat)
    requires RowOrder(ascending, rows) && KeysIdentify(rows)
    ensures SortedBy(Identity(), Collect(RowPath(key), rows))
  {
    if rows != [] {
      var front, last := rows[..|rows| - 1], rows[|rows| - 1];
      assert rows == front + [last];
      FewerRows(ascending, front, last);
      RowPathsSorted(ascending, front, key);
      CollectSnoc(RowPath(key), front, last);
      if RowPath(key)(last).Some? {
        EarlierPaths(ascending, front, last, key);
        SortedSnoc(Identity(), Collect(RowPath(key), front), PathOf(last));
      }
    }
  }

  lemma {:induction false} AliasPathsSorted(rows: seq<Alias>, key: nat)
    requires AliasOrder(rows)
    ensures SortedBy(Identity(), Collect(OwnPath(key), rows))
  {
    if rows != [] {
      var front, last := rows[..|rows| - 1], rows[|rows| - 1];
      assert rows == front + [last];
      AliasPathsSorted(front, key);
      CollectMembers(OwnPath(key), front);
      CollectSnoc(OwnPath(key), front, last);
      forall p | p in Collect(OwnPath(key), front) && last.key == key ensures p <= last.path {
        var a :| a in front && OwnPath(key)(a) == Some(p);
        var i :| 0 <= i < |front| && front[i] == a;
        assert rows[i] == a;
      }
      if last.key == key { SortedSnoc(Identity(), Collect(OwnPath(key), front), last.path); }
    }
  }

  /** Filtering the aliases to chosen media keeps those of each chosen key. */
  lemma {:induction false} FilteredPaths(aliases: seq<Alias>, keys: set<nat>, key: nat)
    requires key in keys
    ensures Collect(OwnPath(key), Collect(InKeys(keys), aliases)) == Collect(OwnPath(key), aliases)
  {
    if aliases != [] {
      var front, last := aliases[..|aliases| - 1], aliases[|aliases| - 1];
      FilteredPaths(front, keys, key);
      CollectSnoc(InKeys(keys), front, last);
      OwnSnoc(key, front, last);
      OwnSnoc(key, Collect(InKeys(keys), front), last);
      LastApart(aliases);
    }
  }

  // ---------- the source of an item ----------

  /** An alias of the key with the first path. */
  ghost predicate Least(aliases: seq<Alias>, key: nat, a: Alias) {
    a in aliases && a.key == key && forall b :: b in aliases && b.key == key ==> a.path <= b.path
  }

  /** All aliases at the first path of a key name the same source. */
  ghost predicate Settled(aliases: seq<Alias>, key: nat) {
    forall a, b :: Least(aliases, key, a) && Least(aliases, key, b) ==> a.source == b.source
  }

  lemma {:induction false} FirstAt(rows: seq<Alias>, key: nat) returns (f: nat)
    requires !Absent(rows, key)
    ensures f < |rows| && rows[f].key == key && FirstSource(rows, key) == rows[f].source
    ensures forall i :: 0 <= i < f ==> rows[i].key != key
  {
    f := 0;
    if rows[0].key != key {
      assert rows == [rows[0]] + rows[1..];
      f := FirstAt(rows[1..], key);
      f := f + 1;
    }
  }

  lemma {:induction false} FirstFrom(rows: seq<Alias>, key: nat, f: nat)
    requires f < |rows| && rows[f].key == key && forall i :: 0 <= i < f ==> rows[i].key != key
    ensures FirstSource(rows, key) == rows[f].source
  {
    if f > 0 { FirstFrom(rows[1..], key, f - 1); }
  }

  lemma {:induction false} FirstRowAt(rows: seq<Row>, key: nat) returns (f: nat)
    requires exists r :: r in rows && r.media.key == key
    ensures f < |rows| && rows[f].media.key == key && RowSource(rows, key) == Opening(rows[f]).source
    ensures forall i :: 0 <= i < f ==> rows[i].media.key != key
  {
    f := 0;
    if rows[0].media.key != key {
      assert rows == [rows[0]] + rows[1..];
      f := FirstRowAt(rows[1..], key);
      f := f + 1;
    }
  }

  /** Everything the three queries of one catalog read. */
  ghost predicate Queries(media: seq<Media>, aliases: seq<Alias>, where: set<nat>, ascending: bool,
                          timeline: seq<Media>, found: seq<Alias>, joined: seq<Row>) {
    && UniqueKeys(media)
    && MediaQuery(media, where, ascending, timeline)
    && AliasQuery(media, aliases, where, found)
    && JoinQuery(media, aliases, where, ascending, joined)
  }

  lemma ChosenMembers(media: seq<Media>, where: set<nat>)
    ensures forall m :: m in Collect(Chosen(where), media) <==> m in media && m.key in where
  {
    CollectMembers(Chosen(where), media);
  }

  lemma {:induction false} ChosenUnique(media: seq<Media>, where: set<nat>)
    requires UniqueKeys(media)
    ensures UniqueKeys(Collect(Chosen(where), media))
  {
    if media != [] {
      var front, last := media[..|media| - 1], media[|media| - 1];
      assert media == front + [last];
      ChosenUnique(front, where);
      ChosenMembers(front, where);
      CollectSnoc(Chosen(where), front, last);
      forall m | m in Collect(Chosen(where), front) ensures m.key != last.key {
        var i :| 0 <= i < |front| && front[i] == m;
        assert media[i].key != media[|media| - 1].key;
      }
    }
  }

  lemma FoundMembers(media: seq<Media>, aliases: seq<Alias>, where: set<nat>, found: seq<Alias>, m: Media)
    requires AliasQuery(media, aliases, where, found) && m in media && m.key in where
    ensures forall a: Alias :: a.key == m.key ==> (a in found <==> a in aliases)
  {
    var keys := set n | n in media && n.key in where :: n.key;
    CollectMembers(InKeys(keys), aliases);
    AllDone(found, AliasesOf(media, aliases, where));
    forall a: Alias | a.key == m.key ensures a in found <==> a in aliases {
      assert a in found <==> a in Collect(InKeys(keys), aliases);
      if a in aliases { assert InKeys(keys)(a) == Some(a); }
    }
  }

  lemma JoinedRow(chosen: seq<Media>, aliases: seq<Alias>, joined: seq<Row>, row: Row)
    requires multiset(joined) == multiset(LeftJoin(chosen, aliases))
    ensures row in joined <==> row.media in chosen && row in RowsFor(row.media, aliases)
  {
    AllDone(joined, LeftJoin(chosen, aliases));
    JoinMembers(chosen, aliases, row);
  }

  lemma ChosenIdentify(chosen: seq<Media>, m: Media, n: Media)
    requires UniqueKeys(chosen) && m in chosen && n in chosen && m.key == n.key
    ensures m == n
  {
    var i :| 0 <= i < |chosen| && chosen[i] == m;
    var j :| 0 <= j < |chosen| && chosen[j] == n;
  }

  /** The rows of the join belong to chosen media and pair them with their aliases. */
  lemma JoinedMembers(media: seq<Media>, aliases: seq<Alias>, where: set<nat>, ascending: bool, joined: seq<Row>)
    requires UniqueKeys(media) && JoinQuery(media, aliases, where, ascending, joined)
    ensures forall row :: row in joined <==>
            row.media in Collect(Chosen(where), media) && row in RowsFor(row.media, aliases)
    ensures KeysIdentify(joined)
  {
    var chosen := Collect(Chosen(where), media);
    ChosenUnique(media, where);
    forall row ensures row in joined <==> row.media in chosen && row in RowsFor(row.media, aliases) {
      JoinedRow(chosen, aliases, joined, row);
    }
    forall r, s | r in joined && s in joined && r.media.key == s.media.key ensures r.media == s.media {
      ChosenIdentify(chosen, r.media, s.media);
    }
  }

  lemma HasRow(media: seq<Media>, aliases: seq<Alias>, where: set<nat>, ascending: bool, joined: seq<Row>, m: Media)
    requires UniqueKeys(media) && JoinQuery(media, aliases, where, ascending, joined)
    ensures m in Collect(Chosen(where), media) <==> HasMedia(joined, m)
  {
    JoinedMembers(media, aliases, where, ascending, joined);
    RowsForMedia(m, aliases);
    if m in Collect(Chosen(where), media) {
      assert RowsFor(m, aliases)[0] in RowsFor(m, aliases);
      assert RowsFor(m, aliases)[0] in joined;
    }
  }

  function MediaOf(items: seq<Item>): seq<Media> {
    seq(|items|, i requires 0 <= i < |items| => items[i].media)
  }

  lemma StreamedMedia(ascending: bool, joined: seq<Row>, items: seq<Item>, m: Media)
    requires StreamFits(ascending, joined, items)
    ensures m in MediaOf(items) <==> HasMedia(joined, m)
  {
    if m in MediaOf(items) {
      var i :| 0 <= i < |items| && MediaOf(items)[i] == m;
      assert ItemFits(joined, items[i]);
    }
    if HasMedia(joined, m) {
      var r :| r in joined && r.media == m;
      var i :| 0 <= i < |items| && items[i].media == r.media;
      assert MediaOf(items)[i] == m;
    }
  }

  /** The stream has the media of the timeline, in its order. */
  lemma StreamTimeline(media: seq<Media>, aliases: seq<Alias>, where: set<nat>, ascending: bool,
                       timeline: seq<Media>, found: seq<Alias>, joined: seq<Row>)
    requires Queries(media, aliases, where, ascending, timeline, found, joined)
    ensures MediaOf(StreamItems(joined)) == timeline && |timeline| == |Collect(Chosen(where), media)|
    ensures forall i :: 0 <= i < |timeline| ==> ItemFits(joined, StreamItems(joined)[i])
  {
    var items := StreamItems(joined);
    JoinedMembers(media, aliases, where, ascending, joined);
    StreamShape(ascending, joined);
    AllDone(timeline, Collect(Chosen(where), media));
    SameLength(timeline, Collect(Chosen(where), media));
    forall m ensures m in MediaOf(items) <==> m in timeline {
      HasRow(media, aliases, where, ascending, joined, m);
      StreamedMedia(ascending, joined, items, m);
    }
    TimelineUnique(ascending, MediaOf(items), timeline);
  }

  /** The paths of an item are the same in both forms. */
  lemma StreamPaths(media: seq<Media>, aliases: seq<Alias>, where: set<nat>, ascending: bool,
                    timeline: seq<Media>, found: seq<Alias>, joined: seq<Row>, m: Media)
    requires Queries(media, aliases, where, ascending, timeline, found, joined) && m in timeline
    ensures Collect(RowPath(m.key), joined) == Collect(OwnPath(m.key), found)
  {
    var chosen, keys := Collect(Chosen(where), media), set n | n in media && n.key in where :: n.key;
    AllDone(timeline, chosen);
    ChosenMembers(media, where);
    ChosenUnique(media, where);
    CollectPermuted(RowPath(m.key), joined, LeftJoin(chosen, aliases));
    JoinPaths(chosen, aliases, m);
    CollectPermuted(OwnPath(m.key), found, AliasesOf(media, aliases, where));
    FilteredPaths(aliases, keys, m.key);
    JoinedMembers(media, aliases, where, ascending, joined);
    RowPathsSorted(ascending, joined, m.key);
    AliasPathsSorted(found, m.key);
    SortedUnique(Identity(), Collect(RowPath(m.key), joined), Collect(OwnPath(m.key), found));
  }

  /** Without aliases there is no source, in either form. */
  lemma NoSource(media: seq<Media>, aliases: seq<Alias>, where: set<nat>, ascending: bool,
                 timeline: seq<Media>, found: seq<Alias>, joined: seq<Row>, m: Media)
    requires Queries(media, aliases, where, ascending, timeline, found, joined) && m in timeline
             && Absent(aliases, m.key)
    ensures FirstSource(found, m.key) == "" && RowSource(joined, m.key) == ""
  {
    AllDone(timeline, Collect(Chosen(where), media));
    ChosenMembers(media, where);
    FoundMembers(media, aliases, where, found, m);
    AbsentKey(found, m.key);
    CollectNone(Joined(m), aliases);
    assert RowsFor(m, aliases) == [Row(m, None)];
    HasRow(media, aliases, where, ascending, joined, m);
    JoinedMembers(media, aliases, where, ascending, joined);
    var f := FirstRowAt(joined, m.key);
    var r :| r in joined && r.media == m;
    assert joined[f] in joined && joined[f].media == m;
  }

  lemma CatalogSource(media: seq<Media>, aliases: seq<Alias>, where: set<nat>, found: seq<Alias>, m: Media)
    returns (f: nat)
    requires AliasQuery(media, aliases, where, found) && m in media && m.key in where && !Absent(aliases, m.key)
    ensures f < |found| && Least(aliases, m.key, found[f]) && FirstSource(found, m.key) == found[f].source
    ensures forall i :: 0 <= i < f ==> found[i].key != m.key
  {
    FoundMembers(media, aliases, where, found, m);
    f := FirstAt(found, m.key);
    assert found[f] in found;
    forall b | b in aliases && b.key == m.key ensures found[f].path <= b.path {
      assert b in found;
      var j :| 0 <= j < |found| && found[j] == b;
    }
  }

  lemma StreamSource(media: seq<Media>, aliases: seq<Alias>, where: set<nat>, ascending: bool, joined: seq<Row>,
                     m: Media)
    returns (a: Alias)
    requires UniqueKeys(media) && JoinQuery(media, aliases, where, ascending, joined)
    requires m in Collect(Chosen(where), media) && !Absent(aliases, m.key)
    ensures Least(aliases, m.key, a) && RowSource(joined, m.key) == a.source
  {
    HasRow(media, aliases, where, ascending, joined, m);
    JoinedMembers(media, aliases, where, ascending, joined);
    var f := FirstRowAt(joined, m.key);
    var row := joined[f];
    assert row in joined;
    var r :| r in joined && r.media == m;
    assert row.media == m && row in RowsFor(m, aliases);
    CollectMembers(Joined(m), aliases);
    OwnRows(m, aliases);
    a := row.alias.value;
    forall b | b in aliases && b.key == m.key ensures a.path <= b.path {
      LaterRow(ascending, joined, f, m, b, aliases);
    }
  }

  lemma OwnRows(m: Media, aliases: seq<Alias>)
    requires !Absent(aliases, m.key)
    ensures forall row :: row in RowsFor(m, aliases) <==>
            row.media == m && row.alias.Some? && row.alias.value.key == m.key && row.alias.value in aliases
  {
    CollectMembers(Joined(m), aliases);
    var a :| a in aliases && a.key == m.key;
    assert Joined(m)(a) == Some(Row(m, Some(a)));
    assert Row(m, Some(a)) in Collect(Joined(m), aliases);
    forall row: Row | row.media == m && row.alias.Some? && row.alias.value.key == m.key && row.alias.value in aliases
      ensures row in RowsFor(m, aliases)
    {
      assert Joined(m)(row.alias.value) == Some(row);
    }
  }

  lemma LaterRow(ascending: bool, joined: seq<Row>, f: nat, m: Media, b: Alias, aliases: seq<Alias>)
    requires RowOrder(ascending, joined) && f < |joined| && joined[f].media == m && joined[f].alias.Some?
    requires forall i :: 0 <= i < f ==> joined[i].media.key != m.key
    requires b in aliases && b.key == m.key
    requires forall row: Row :: row.media == m ==> (row in joined <==> row in RowsFor(m, aliases))
    ensures joined[f].alias.value.path <= b.path
  {
    OwnRows(m, aliases);
    assert Row(m, Some(b)) in joined;
    var j :| 0 <= j < |joined| && joined[j] == Row(m, Some(b));
    if f < j { assert Before(ascending, m, m) || PathOf(joined[f]) <= PathOf(joined[j]); }
  }

  lemma StreamedItem(media: seq<Media>, aliases: seq<Alias>, where: set<nat>, ascending: bool,
                     timeline: seq<Media>, found: seq<Alias>, joined: seq<Row>, i: nat)
    requires Queries(media, aliases, where, ascending, timeline, found, joined) && i < |timeline|
    ensures |StreamItems(joined)| == |timeline| && StreamItems(joined)[i].media == timeline[i]
    ensures StreamItems(joined)[i].paths == Collect(OwnPath(timeline[i].key), found)
    ensures StreamItems(joined)[i].source == RowSource(joined, timeline[i].key)
  {
    var items := StreamItems(joined);
    StreamTimeline(media, aliases, where, ascending, timeline, found, joined);
    assert |items| == |MediaOf(items)| && MediaOf(items)[i] == items[i].media;
    assert timeline[i] in timeline;
    StreamPaths(media, aliases, where, ascending, timeline, found, joined, timeline[i]);
  }

  lemma SettledItem(media: seq<Media>, aliases: seq<Alias>, where: set<nat>, ascending: bool,
                    timeline: seq<Media>, found: seq<Alias>, joined: seq<Row>, i: nat)
    requires Queries(media, aliases, where, ascending, timeline, found, joined) && i < |timeline|
    requires Settled(aliases, timeline[i].key)
    ensures |StreamItems(joined)| == |timeline| && StreamItems(joined)[i] == CatalogItem(timeline[i], found)
  {
    StreamedItem(media, aliases, where, ascending, timeline, found, joined, i);
    assert timeline[i] in timeline;
    SettledSource(media, aliases, where, ascending, timeline, found, joined, timeline[i]);
  }

  lemma SameItems(items: seq<Item>, timeline: seq<Media>, found: seq<Alias>)
    requires |items| == |timeline| && forall i :: 0 <= i < |items| ==> items[i] == CatalogItem(timeline[i], found)
    ensures items == CatalogItems(timeline, found)
  {
  }

  lemma StreamLength(media: seq<Media>, aliases: seq<Alias>, where: set<nat>, ascending: bool,
                     timeline: seq<Media>, found: seq<Alias>, joined: seq<Row>)
    requires Queries(media, aliases, where, ascending, timeline, found, joined)
    ensures |StreamItems(joined)| == |timeline|
  {
    StreamTimeline(media, aliases, where, ascending, timeline, found, joined);
    assert |StreamItems(joined)| == |MediaOf(StreamItems(joined))|;
  }

  /** The streamed catalog equals the catalog of the two queries when each item's
      first path names one source. */
  lemma StreamIsCatalog(media: seq<Media>, aliases: seq<Alias>, where: set<nat>, ascending: bool,
                        timeline: seq<Media>, found: seq<Alias>, joined: seq<Row>)
    requires Queries(media, aliases, where, ascending, timeline, found, joined)
    requires forall m :: m in timeline ==> Settled(aliases, m.key)
    ensures StreamItems(joined) == CatalogItems(timeline, found)
  {
    StreamLength(media, aliases, where, ascending, timeline, found, joined);
    forall i | 0 <= i < |timeline| ensures StreamItems(joined)[i] == CatalogItem(timeline[i], found) {
      assert timeline[i] in timeline;
      SettledItem(media, aliases, where, ascending, timeline, found, joined, i);
    }
    SameItems(StreamItems(joined), timeline, found);
  }

  lemma SettledSource(media: seq<Media>, aliases: seq<Alias>, where: set<nat>, ascending: bool,
                      timeline: seq<Media>, found: seq<Alias>, joined: seq<Row>, m: Media)
    requires Queries(media, aliases, where, ascending, timeline, found, joined) && m in timeline
             && Settled(aliases, m.key)
    ensures FirstSource(found, m.key) == RowSource(joined, m.key)
  {
    AllDone(timeline, Collect(Chosen(where), media));
    ChosenMembers(media, where);
    if Absent(aliases, m.key) {
      NoSource(media, aliases, where, ascending, timeline, found, joined, m);
    } else {
      var f := CatalogSource(media, aliases, where, found, m);
      var a := StreamSource(media, aliases, where, ascending, joined, m);
    }
  }

  /** Whatever the order of ties, media, paths and counts agree: only the source of
      an item can differ. */
  lemma StreamAgrees(media: seq<Media>, aliases: seq<Alias>, where: set<nat>, ascending: bool,
                     timeline: seq<Media>, found: seq<Alias>, joined: seq<Row>)
    requires Queries(media, aliases, where, ascending, timeline, found, joined)
    ensures var items, catalog := StreamItems(joined), CatalogItems(timeline, found);
            && |items| == |catalog| == |Collect(Chosen(where), media)|
            && forall i :: 0 <= i < |items| ==> items[i].media == catalog[i].media && items[i].paths == catalog[i].paths
  {
    StreamTimeline(media, aliases, where, ascending, timeline, found, joined);
    assert |StreamItems(joined)| == |MediaOf(StreamItems(joined))|;
    forall i | 0 <= i < |timeline|
      ensures StreamItems(joined)[i].media == timeline[i]
      ensures StreamItems(joined)[i].paths == Collect(OwnPath(timeline[i].key), found)
    {
      StreamedItem(media, aliases, where, ascending, timeline, found, joined, i);
    }
  }

  lemma SwapAliases(found: seq<Alias>, f: nat, g: nat)
    requires AliasOrder(found) && f < |found| && g < |found| && found[f].key == found[g].key
             && found[f].path == found[g].path
    ensures var swapped := found[f := found[g]][g := found[f]];
            AliasOrder(swapped) && multiset(swapped) == multiset(found)
  {
  }

  lemma OtherSource(media: seq<Media>, aliases: seq<Alias>, where: set<nat>, found: seq<Alias>, m: Media,
                    source: string)
    returns (other: seq<Alias>)
    requires AliasQuery(media, aliases, where, found) && m in media && m.key in where && !Settled(aliases, m.key)
    ensures AliasQuery(media, aliases, where, other) && FirstSource(other, m.key) != source
  {
    var a, b :| Least(aliases, m.key, a) && Least(aliases, m.key, b) && a.source != b.source;
    var x := if a.source != source then a else b;
    FoundMembers(media, aliases, where, found, m);
    var f := CatalogSource(media, aliases, where, found, m);
    assert x in found;
    var g :| 0 <= g < |found| && found[g] == x;
    assert found[f] in found && found[f].path == x.path;
    other := found[f := found[g]][g := found[f]];
    SwapAliases(found, f, g);
    assert f <= g;
    FirstFrom(other, m.key, f);
  }

  /** When the first path of an item names two sources, some order of the aliases
      makes the two forms differ. */
  lemma UnsettledDiffers(media: seq<Media>, aliases: seq<Alias>, where: set<nat>, ascending: bool,
                         timeline: seq<Media>, found: seq<Alias>, joined: seq<Row>, m: Media)
    returns (other: seq<Alias>)
    requires Queries(media, aliases, where, ascending, timeline, found, joined) && m in timeline
             && !Settled(aliases, m.key)
    ensures Queries(media, aliases, where, ascending, timeline, other, joined)
    ensures StreamItems(joined) != CatalogItems(timeline, other)
  {
    AllDone(timeline, Collect(Chosen(where), media));
    ChosenMembers(media, where);
    other := OtherSource(media, aliases, where, found, m, RowSource(joined, m.key));
    var i :| 0 <= i < |timeline| && timeline[i] == m;
    StreamedItem(media, aliases, where, ascending, timeline, found, joined, i);
    assert CatalogItems(timeline, other)[i].source == FirstSource(other, m.key);
  }

  /** The two forms agree for every order the database may choose exactly when each
      item's first path names one source. */
  lemma StreamIsCatalogExactly(media: seq<Media>, aliases: seq<Alias>, where: set<nat>, ascending: bool,
                               timeline: seq<Media>, found: seq<Alias>, joined: seq<Row>)
    requires Queries(media, aliases, where, ascending, timeline, found, joined)
    ensures (forall other :: AliasQuery(media, aliases, where, other) ==>
             StreamItems(joined) == CatalogItems(timeline, other))
            <==> (forall m :: m in timeline ==> Settled(aliases, m.key))
  {
    if forall m :: m in timeline ==> Settled(aliases, m.key) {
      forall other | AliasQuery(media, aliases, where, other)
        ensures StreamItems(joined) == CatalogItems(timeline, other)
      {
        StreamIsCatalog(media, aliases, where, ascending, timeline, other, joined);
      }
    } else {
      var m :| m in timeline && !Settled(aliases, m.key);
      var other := UnsettledDiffers(media, aliases, where, ascending, timeline, found, joined, m);
    }
  }

  // ---------- the catalog, written out ----------

  function AliasAt(key: nat, path: nat): Alias -> bool {
    (a: Alias) => a.key == key && a.path == path
  }

  function OwnPaths(aliases: seq<Alias>, key: nat): seq<nat> {
    Collect(OwnPath(key), aliases)
  }

  lemma {:induction false} OwnCounted(aliases: seq<Alias>, key: nat, path: nat)
    ensures multiset(OwnPaths(aliases, key))[path] == HowMany(AliasAt(key, path), aliases)
  {
    if aliases != [] {
      var front, last := aliases[..|aliases| - 1], aliases[|aliases| - 1];
      OwnCounted(front, key, path);
      LastApart(aliases);
      OwnSnoc(key, front, last);
    }
  }

  /** The item of a media row: the paths of its aliases in ascending order, each as often
      as it is named, and the source of an alias with the first of them. */
  ghost predicate ItemSays(item: Item, m: Media, aliases: seq<Alias>) {
    && item.media == m
    && PathsSay(item.paths, m.key, aliases)
    && if Absent(aliases, m.key) then item.source == ""
       else exists a :: Least(aliases, m.key, a) && a.source == item.source
  }

  /** Dated media come first, by date in the direction asked for, and by key among equal
      dates and among those without one. */
  ghost predicate InTime(ascending: bool, a: Media, b: Media) {
    if a.captured == 0 || b.captured == 0 then a.captured != 0 || (b.captured == 0 && a.key < b.key)
    else if a.captured == b.captured then a.key < b.key
    else if ascending then a.captured < b.captured else a.captured > b.captured
  }

  lemma SortedPaths(paths: seq<nat>)
    requires SortedBy(Identity(), paths)
    ensures forall i, j :: 0 <= i < j < |paths| ==> paths[i] <= paths[j]
  {
    forall i, j | 0 <= i < j < |paths| ensures paths[i] <= paths[j] {
      assert Identity()(paths[i]) <= Identity()(paths[j]);
    }
  }

  lemma SamePaths(media: seq<Media>, aliases: seq<Alias>, where: set<nat>, found: seq<Alias>, m: Media)
    requires AliasQuery(media, aliases, where, found) && m in media && m.key in where
    ensures multiset(OwnPaths(found, m.key)) == multiset(OwnPaths(aliases, m.key))
  {
    var keys := set x | x in media && x.key in where :: x.key;
    assert m.key in keys;
    CollectPermuted(OwnPath(m.key), found, AliasesOf(media, aliases, where));
    FilteredPaths(aliases, keys, m.key);
  }

  /** The paths of these aliases, in order and as often as they are named. */
  ghost predicate PathsSay(paths: seq<nat>, key: nat, aliases: seq<Alias>) {
    && (forall i, j :: 0 <= i < j < |paths| ==> paths[i] <= paths[j])
    && (forall path: nat :: multiset(paths)[path] == HowMany(AliasAt(key, path), aliases))
  }

  lemma OwnPathsSay(media: seq<Media>, aliases: seq<Alias>, where: set<nat>, found: seq<Alias>, m: Media)
    requires AliasQuery(media, aliases, where, found) && m in media && m.key in where
    ensures PathsSay(OwnPaths(found, m.key), m.key, aliases)
  {
    AliasPathsSorted(found, m.key);
    SortedPaths(OwnPaths(found, m.key));
    SamePaths(media, aliases, where, found, m);
    SameCounts(OwnPaths(found, m.key), OwnPaths(aliases, m.key), m.key, aliases);
  }

  lemma SameCounts(paths: seq<nat>, own: seq<nat>, key: nat, aliases: seq<Alias>)
    requires multiset(paths) == multiset(own) && own == OwnPaths(aliases, key)
    ensures forall path: nat :: multiset(paths)[path] == HowMany(AliasAt(key, path), aliases)
  {
    forall path: nat ensures multiset(paths)[path] == HowMany(AliasAt(key, path), aliases) {
      OwnCounted(aliases, key, path);
    }
  }

  lemma SourceSays(media: seq<Media>, aliases: seq<Alias>, where: set<nat>, found: seq<Alias>, m: Media)
    requires AliasQuery(media, aliases, where, found) && m in media && m.key in where
    ensures if Absent(aliases, m.key) then FirstSource(found, m.key) == ""
            else exists a :: Least(aliases, m.key, a) && a.source == FirstSource(found, m.key)
  {
    if Absent(aliases, m.key) {
      FoundMembers(media, aliases, where, found, m);
      AbsentKey(found, m.key);
    } else {
      var f := CatalogSource(media, aliases, where, found, m);
    }
  }

  lemma CatalogItemSays(media: seq<Media>, aliases: seq<Alias>, where: set<nat>, found: seq<Alias>, m: Media)
    requires AliasQuery(media, aliases, where, found) && m in media && m.key in where
    ensures ItemSays(CatalogItem(m, found), m, aliases)
  {
    OwnPathsSay(media, aliases, where, found, m);
    SourceSays(media, aliases, where, found, m);
  }

  /** The catalog has one item for each chosen media row, in the order of the timeline,
      and each item says its row. */
  lemma CatalogExactly(media: seq<Media>, aliases: seq<Alias>, where: set<nat>, ascending: bool,
                       timeline: seq<Media>, found: seq<Alias>)
    requires UniqueKeys(media) && MediaQuery(media, where, ascending, timeline)
    requires AliasQuery(media, aliases, where, found)
    ensures var items := CatalogItems(timeline, found);
            && |items| == |timeline| && (forall m :: m in timeline <==> m in media && m.key in where)
            && (forall i, j :: 0 <= i < j < |timeline| ==> InTime(ascending, timeline[i], timeline[j]))
            && forall i :: 0 <= i < |items| ==> ItemSays(items[i], timeline[i], aliases)
  {
    ChosenMembers(media, where);
    AllDone(timeline, Collect(Chosen(where), media));
    forall i | 0 <= i < |timeline| ensures ItemSays(CatalogItems(timeline, found)[i], timeline[i], aliases) {
      assert timeline[i] in timeline;
      CatalogItemSays(media, aliases, where, found, timeline[i]);
    }
    forall i, j | 0 <= i < j < |timeline| ensures InTime(ascending, timeline[i], timeline[j]) {
      assert Before(ascending, timeline[i], timeline[j]);
    }
  }

  // ---------- pages ----------

  /** Following the next offset until there is no more. */
  function Follow(rows: seq<Media>, offset: nat, limit: nat): Option<seq<Media>>
    decreases |rows| - offset
  {
    var page := PageOf(rows, offset, limit);
    if page.None? then None
    else if !page.value.hasMore then Some(page.value.items)
    else
      var rest := Follow(rows, page.value.nextOffset, limit);
      if rest.None? then None else Some(page.value.items + rest.value)
  }

  lemma OneLess(n: nat, limit: nat)
    requires n > 0
    ensures n * limit == (n - 1) * limit + limit
  {
  }

  lemma FollowStep(rows: seq<Media>, offset: nat, limit: nat)
    requires 1 <= limit <= MAX_LIMIT && (offset < |rows| || offset == 0)
    ensures Follow(rows, offset, limit)
         == if offset > MAX_OFFSET then None
            else if offset + limit >= |rows| then Some(rows[offset..])
            else
              var rest := Follow(rows, offset + limit, limit);
              if rest.None? then None else Some(rows[offset..offset + limit] + rest.value)
  {
  }

  lemma TwoParts(rows: seq<Media>, offset: nat, middle: nat)
    requires offset <= middle <= |rows|
    ensures rows[offset..middle] + rows[middle..] == rows[offset..]
  {
  }

  /** With `n` allowed pages left before `bound`. */
  lemma {:induction false} FollowFrom(rows: seq<Media>, offset: nat, limit: nat, bound: nat, n: nat)
    requires 1 <= limit <= MAX_LIMIT && bound - limit <= MAX_OFFSET < bound && bound == offset + n * limit
    requires offset < |rows| || (offset == 0 && n > 0)
    ensures Follow(rows, offset, limit) == if |rows| <= bound then Some(rows[offset..]) else None
    decreases n
  {
    FollowStep(rows, offset, limit);
    if n > 0 {
      OneLess(n, limit);
      PageFits(n, limit);
      if offset + limit < |rows| {
        FollowFrom(rows, offset + limit, limit, bound, n - 1);
        TwoParts(rows, offset, offset + limit);
      }
    }
  }

  lemma PageFits(n: nat, limit: nat)
    requires n > 0
    ensures n * limit >= limit && (n - 1) * limit >= 0
  {
  }

  /** Pages of a fixed size give the whole timeline exactly when it ends by the last
      page whose offset is allowed; otherwise following them fails. */
  lemma PagesCoverTimeline(rows: seq<Media>, limit: nat)
    requires 1 <= limit <= 4096
    ensures Follow(rows, 0, limit) == if |rows| <= (2_000_000 / limit + 1) * limit then Some(rows) else None
  {
    var n := MAX_OFFSET / limit + 1;
    OneLess(n, limit);
    FollowFrom(rows, 0, limit, n * limit, n);
    assert rows[0..] == rows;
  }
}
