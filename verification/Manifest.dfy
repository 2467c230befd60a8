/** Manifest entries, the results a server returns for them, and what an accepted
    result does to the client's record of the server's inventory. */
module Manifest {
  import opened Options
  import Descriptions

  datatype Operation = Upsert | Deleted | OtherOperation

  datatype Outcome =
    | CreatedOccurrence | UpdatedOccurrence | DuplicateLinked | Unchanged
    | DeletedOccurrence | IgnoredDeletion | Rejected | OtherOutcome

  /** One entry of a manifest payload; a missing text field is "". */
  datatype Entry = Entry(
    operation: Operation, item: string, revision: string,
    fileName: string, locator: string, contentHash: string, photo: bool)

  /** One entry of a manifest response; a missing identifier is 0. */
  datatype EntryResult = EntryResult(
    item: string, outcome: Outcome, uploadRequired: bool, job: nat, occurrence: nat, asset: nat)

  datatype Response = Response(results: seq<EntryResult>, rejectedCount: nat)

  /** A row of KnownOccurrence, and of the server's inventory. */
  datatype Occurrence = Occurrence(revision: string, path: string)

  type Inventory = map<string, Occurrence>

  /** The two groups of tables an accepted entry changes. */
  datatype Store = Store(known: Inventory, desc: Descriptions.Tables)

  type Delivery = (Entry, EntryResult)

  function OccurrenceOf(e: Entry): Occurrence {
    Occurrence(e.revision, if e.locator != "" then e.locator else e.fileName)
  }

  function IdentityOf(e: Entry, r: EntryResult): Descriptions.Identity {
    Descriptions.Identity(r.occurrence, r.asset, e.item, e.locator, e.contentHash, e.fileName)
  }

  function Lookup(m: Inventory, item: string): Option<Occurrence> {
    if item in m then Some(m[item]) else None
  }

  /** What an applied entry leaves at its item. */
  function Effect(e: Entry): Option<Occurrence> {
    if e.operation == Upsert then Some(OccurrenceOf(e)) else None
  }

  ghost predicate DistinctItems(entries: seq<Entry>) {
    forall i, j :: 0 <= i < j < |entries| ==> entries[i].item != entries[j].item
  }

  predicate IsHex(c: char) {
    '0' <= c <= '9' || 'a' <= c <= 'f' || 'A' <= c <= 'F'
  }

  predicate IsSha256(text: string) {
    |text| == 64 && forall i :: 0 <= i < |text| ==> IsHex(text[i])
  }

  // ---------- accepting a response ----------

  /** The response is read into a dictionary keyed by item: a later result for the
      same item replaces an earlier one, and results without an item are dropped. */
  function ResultFor(results: seq<EntryResult>, item: string): Option<EntryResult> {
    if results == [] then None
    else
      var last := results[|results| - 1];
      if last.item != "" && last.item == item then Some(last)
      else ResultFor(results[..|results| - 1], item)
  }

  predicate UpsertApplied(outcome: Outcome) {
    outcome in {CreatedOccurrence, UpdatedOccurrence, DuplicateLinked, Unchanged}
  }

  predicate Accepts(e: Entry, reliable: bool, r: Option<EntryResult>) {
    && r.Some?
    && !r.value.uploadRequired
    && r.value.outcome != Rejected
    && (e.operation == Deleted ==>
          r.value.outcome == DeletedOccurrence || (r.value.outcome == IgnoredDeletion && reliable))
    && (e.operation == Upsert ==> UpsertApplied(r.value.outcome))
  }

  function Accepted(entries: seq<Entry>, reliable: bool, results: seq<EntryResult>): (ds: seq<Delivery>)
    ensures |ds| <= |entries|
  {
    if entries == [] then []
    else
      var e := entries[|entries| - 1];
      var r := ResultFor(results, e.item);
      Accepted(entries[..|entries| - 1], reliable, results)
      + if Accepts(e, reliable, r) then [(e, r.value)] else []
  }

  function Refused(entries: seq<Entry>, reliable: bool, results: seq<EntryResult>): (es: seq<Entry>)
    ensures |es| <= |entries|
  {
    if entries == [] then []
    else
      var e := entries[|entries| - 1];
      Refused(entries[..|entries| - 1], reliable, results)
      + if Accepts(e, reliable, ResultFor(results, e.item)) then [] else [e]
  }

  // ---------- delivering accepted entries ----------

  function Deliver(source: nat, s: Store, d: Delivery): Store {
    match d.0.operation
    case Upsert =>
      Store(s.known[d.0.item := OccurrenceOf(d.0)],
            Descriptions.Queue(s.desc, source, d.0.photo, d.1.job, IdentityOf(d.0, d.1)))
    case Deleted => Store(s.known - {d.0.item}, Descriptions.DropItem(s.desc, source, d.0.item))
    case OtherOperation => s
  }

  function DeliverAll(source: nat, s: Store, ds: seq<Delivery>): Store {
    if ds == [] then s
    else Deliver(source, DeliverAll(source, s, ds[..|ds| - 1]), ds[|ds| - 1])
  }

  lemma {:induction false} DeliverAllConcat(source: nat, s: Store, a: seq<Delivery>, b: seq<Delivery>)
    ensures DeliverAll(source, s, a + b) == DeliverAll(source, DeliverAll(source, s, a), b)
  {
    if b == [] {
      assert a + b == a;
    } else {
      var front := b[..|b| - 1];
      DeliverAllConcat(source, s, a, front);
      assert (a + b)[..|a + b| - 1] == a + front;
    }
  }

  /** Only the delivered items change, and each holds the effect of its entry. */
  lemma {:induction false} DeliverAllKnown(source: nat, s: Store, ds: seq<Delivery>, item: string)
    requires forall i, j :: 0 <= i < j < |ds| ==> ds[i].0.item != ds[j].0.item
    requires forall i :: 0 <= i < |ds| ==> ds[i].0.operation != OtherOperation
    ensures forall i :: 0 <= i < |ds| && ds[i].0.item == item ==>
              Lookup(DeliverAll(source, s, ds).known, item) == Effect(ds[i].0)
    ensures (forall i :: 0 <= i < |ds| ==> ds[i].0.item != item) ==>
              Lookup(DeliverAll(source, s, ds).known, item) == Lookup(s.known, item)
  {
    if ds != [] {
      var front := ds[..|ds| - 1];
      DeliverAllKnown(source, s, front, item);
      assert forall i :: 0 <= i < |front| ==> front[i] == ds[i];
    }
  }

  lemma {:induction false} DeliverAllKeepsDescriptions(source: nat, s: Store, ds: seq<Delivery>)
    requires Descriptions.Consistent(s.desc)
    ensures Descriptions.Consistent(DeliverAll(source, s, ds).desc)
  {
    if ds != [] {
      var before := DeliverAll(source, s, ds[..|ds| - 1]);
      var d := ds[|ds| - 1];
      DeliverAllKeepsDescriptions(source, s, ds[..|ds| - 1]);
      Descriptions.QueueKeepsConsistent(before.desc, source, d.0.photo, d.1.job, IdentityOf(d.0, d.1));
      Descriptions.DropItemKeepsConsistent(before.desc, source, d.0.item);
    }
  }

  /** Every entry is either accepted or refused, in order and never both. */
  lemma {:induction false} AcceptedOrRefused(entries: seq<Entry>, reliable: bool, results: seq<EntryResult>)
    ensures forall d :: d in Accepted(entries, reliable, results) ==>
              d.0 in entries && ResultFor(results, d.0.item) == Some(d.1) && Accepts(d.0, reliable, Some(d.1))
    ensures forall e :: e in Refused(entries, reliable, results) <==>
              e in entries && !Accepts(e, reliable, ResultFor(results, e.item))
    ensures forall e :: e in entries && Accepts(e, reliable, ResultFor(results, e.item)) ==>
              (e, ResultFor(results, e.item).value) in Accepted(entries, reliable, results)
    ensures |Accepted(entries, reliable, results)| + |Refused(entries, reliable, results)| == |entries|
  {
    if entries != [] {
      AcceptedOrRefused(entries[..|entries| - 1], reliable, results);
      assert entries == entries[..|entries| - 1] + [entries[|entries| - 1]];
    }
  }

  lemma {:induction false} AcceptedDistinct(entries: seq<Entry>, reliable: bool, results: seq<EntryResult>)
    requires DistinctItems(entries)
    ensures var ds := Accepted(entries, reliable, results);
            forall i, j :: 0 <= i < j < |ds| ==> ds[i].0.item != ds[j].0.item
  {
    if entries != [] {
      var front := entries[..|entries| - 1];
      AcceptedDistinct(front, reliable, results);
      AcceptedOrRefused(front, reliable, results);
    }
  }
}
