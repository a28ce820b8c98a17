/**
 * Budget items and the defensive normalisation that turns every document of a
 * Firestore snapshot into a strict item before the page stores it.
 */
module BudgetItems {
  import opened Optional
  import opened Values

  /** Placeholder shown for an item whose description is missing or falsy. */
  const UNKNOWN_DESCRIPTION: Value := Str("Unbekannt")
  /** The default status of an item that has none. */
  const PLANNED: Value := Str("planned")
  /** The only status that counts towards the paid total. */
  const PAID: Value := Str("paid")

  /**
   * One budget line item as the page keeps it. `description`, `category`,
   * `status` and `notes` stay raw values: the page only casts them to their
   * declared TypeScript types, it never checks them.
   */
  datatype BudgetItem = BudgetItem(
    id: string,
    description: Value,
    category: Value,
    estimatedCost: int,
    actualCost: Option<int>,
    status: Value,
    createdAt: Timestamp,
    paidDate: Option<Timestamp>,
    dueDate: Option<Timestamp>,
    notes: Value)

  /** A document of a query snapshot: its id and its untyped data. */
  datatype Doc = Doc(id: string, data: Record)

  /** An item as normalisation can produce it: description and status are truthy. */
  predicate WellFormed(item: BudgetItem) {
    Truthy(item.description) && Truthy(item.status)
  }

  /** `typeof v === 'number' ? v : default`. */
  function NumberOr(v: Value, default: int): int {
    if v.Num? then v.n else default
  }

  /** `typeof v === 'number' ? v : undefined`. */
  function NumberOrAbsent(v: Value): Option<int> {
    if v.Num? then Some(v.n) else None
  }

  /** `v instanceof Timestamp ? v : undefined`. */
  function StampOrAbsent(v: Value): Option<Timestamp> {
    if v.Stamp? then Some(v.t) else None
  }

  /**
   * The item built for one snapshot document. `now` stands for the
   * `Timestamp.now()` fallback used when the stored `createdAt` is not a timestamp.
   */
  function Normalise(doc: Doc, now: Timestamp): (item: BudgetItem)
    ensures item.id == doc.id
    ensures WellFormed(item)
  {
    var data := doc.data;
    BudgetItem(
      id := doc.id,
      description := Or(Get(data, "description"), UNKNOWN_DESCRIPTION),
      category := Get(data, "category"),
      estimatedCost := NumberOr(Get(data, "estimatedCost"), 0),
      actualCost := NumberOrAbsent(Get(data, "actualCost")),
      status := Or(Get(data, "status"), PLANNED),
      createdAt := if Get(data, "createdAt").Stamp? then Get(data, "createdAt").t else now,
      paidDate := StampOrAbsent(Get(data, "paidDate")),
      dueDate := StampOrAbsent(Get(data, "dueDate")),
      notes := Get(data, "notes"))
  }

  /**
   * The list the snapshot listener builds: one item per document, pushed in
   * snapshot order.
   */
  function NormaliseSnapshot(docs: seq<Doc>, now: Timestamp): (items: seq<BudgetItem>)
    ensures |items| == |docs|
    ensures forall i :: 0 <= i < |docs| ==> items[i] == Normalise(docs[i], now)
    // A corollary of the clause above and `Normalise`'s own contract, kept for callers.
    ensures forall i :: 0 <= i < |docs| ==> items[i].id == docs[i].id
    decreases |docs|
  {
    if |docs| == 0 then []
    else NormaliseSnapshot(docs[..|docs| - 1], now) + [Normalise(docs[|docs| - 1], now)]
  }

  /** Each field's default, and that every value of the expected kind passes through. */
  lemma NormaliseDefaults(doc: Doc, now: Timestamp)
    ensures var item := Normalise(doc, now);
            var data := doc.data;
            && (!Truthy(Get(data, "description")) ==> item.description == UNKNOWN_DESCRIPTION)
            && (Truthy(Get(data, "description")) ==> item.description == Get(data, "description"))
            && (!Get(data, "estimatedCost").Num? ==> item.estimatedCost == 0)
            && (Get(data, "estimatedCost").Num? ==> Num(item.estimatedCost) == Get(data, "estimatedCost"))
            && (!Get(data, "actualCost").Num? <==> item.actualCost.None?)
            && (item.actualCost.Some? ==> Num(item.actualCost.value) == Get(data, "actualCost"))
            && (!Truthy(Get(data, "status")) ==> item.status == PLANNED)
            && (Truthy(Get(data, "status")) ==> item.status == Get(data, "status"))
            && (!Get(data, "paidDate").Stamp? <==> item.paidDate.None?)
            && (item.paidDate.Some? ==> Stamp(item.paidDate.value) == Get(data, "paidDate"))
            && (!Get(data, "dueDate").Stamp? <==> item.dueDate.None?)
            && (item.dueDate.Some? ==> Stamp(item.dueDate.value) == Get(data, "dueDate"))
            && (Get(data, "createdAt").Stamp? ==> Stamp(item.createdAt) == Get(data, "createdAt"))
            && (!Get(data, "createdAt").Stamp? ==> item.createdAt == now)
            && item.category == Get(data, "category")
            && item.notes == Get(data, "notes")
  {
  }

  /** The clock fallback matters only for a document whose `createdAt` is not a timestamp. */
  lemma NormaliseIgnoresClock(doc: Doc, now1: Timestamp, now2: Timestamp)
    requires Get(doc.data, "createdAt").Stamp?
    ensures Normalise(doc, now1) == Normalise(doc, now2)
  {
  }

  /** The document data a well-formed item reads back from: each field under its own key. */
  function Export(item: BudgetItem): Record {
    map[
      "description" := item.description,
      "category" := item.category,
      "estimatedCost" := Num(item.estimatedCost),
      "actualCost" := if item.actualCost.Some? then Num(item.actualCost.value) else Undefined,
      "status" := item.status,
      "createdAt" := Stamp(item.createdAt),
      "paidDate" := if item.paidDate.Some? then Stamp(item.paidDate.value) else Undefined,
      "dueDate" := if item.dueDate.Some? then Stamp(item.dueDate.value) else Undefined,
      "notes" := item.notes]
  }

  /** Normalisation gives back every well-formed item unchanged: it only fills defaults. */
  lemma NormaliseRoundTrip(item: BudgetItem, now: Timestamp)
    requires WellFormed(item)
    ensures Normalise(Doc(item.id, Export(item)), now) == item
  {
  }

  /** The snapshot a list of items reads back from. */
  function ExportAll(items: seq<BudgetItem>): (docs: seq<Doc>)
    ensures |docs| == |items|
    ensures forall i :: 0 <= i < |items| ==> docs[i] == Doc(items[i].id, Export(items[i]))
  {
    seq(|items|, i requires 0 <= i < |items| => Doc(items[i].id, Export(items[i])))
  }

  /**
   * A snapshot of well-formed items normalises back to the same list: same
   * length, same order, same items.
   */
  lemma {:induction false} NormaliseSnapshotRoundTrip(items: seq<BudgetItem>, now: Timestamp)
    requires forall i :: 0 <= i < |items| ==> WellFormed(items[i])
    ensures NormaliseSnapshot(ExportAll(items), now) == items
  {
    var back := NormaliseSnapshot(ExportAll(items), now);
    forall i | 0 <= i < |items|
      ensures back[i] == items[i]
    {
      NormaliseRoundTrip(items[i], now);
    }
  }

  /** Normalising two snapshots back to back is normalising their concatenation. */
  lemma {:induction false} NormaliseSnapshotAppend(a: seq<Doc>, b: seq<Doc>, now: Timestamp)
    ensures NormaliseSnapshot(a + b, now) == NormaliseSnapshot(a, now) + NormaliseSnapshot(b, now)
  {
    var left := NormaliseSnapshot(a + b, now);
    var right := NormaliseSnapshot(a, now) + NormaliseSnapshot(b, now);
    forall i | 0 <= i < |a + b|
      ensures left[i] == right[i]
    {
      if i >= |a| {
        assert (a + b)[i] == b[i - |a|];
      }
    }
  }
}
