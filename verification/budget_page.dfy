/**
 * The budget page's own state and the writes it sends. The backend store of
 * the signed-in user's `budgetItems` collection is a map from document id to
 * document data; whether the backend accepts a write, the id it assigns and
 * the time it stamps are the fields of an abstract `Backend` outcome.
 */
module BudgetPage {
  import opened Optional
  import opened Values
  import opened BudgetItems
  import opened BudgetSummary

  const LOGIN_REQUIRED := "Bitte einloggen, um das Budget zu sehen."
  const LOAD_FAILED := "Budgetdaten konnten nicht geladen werden."
  const SAVE_FAILED := "Speichern des Budgetpostens fehlgeschlagen."
  const DELETE_FAILED := "Löschen fehlgeschlagen."

  /** A value in a write payload: a plain value, or the `serverTimestamp()` sentinel. */
  datatype Field = Plain(v: Value) | ServerTimestamp

  type Payload = map<string, Field>

  /** The form's submitted data, whatever keys it carries. */
  type FormData = map<string, Value>

  /** The documents of the user's collection, by id. */
  type Store = map<string, Record>

  /** One write: `updateDoc` on an existing id, or `addDoc` to the collection. */
  datatype Write = Update(id: string, payload: Payload) | Add(payload: Payload)

  /** What the backend does with the next write: accept it or not, the id a new document gets, its clock. */
  datatype Backend = Backend(accepts: bool, newId: string, now: Timestamp)

  /** The page's React state. */
  datatype Page = Page(
    user: Option<string>,
    items: seq<BudgetItem>,
    loading: bool,
    error: Option<string>,
    modalOpen: bool,
    editing: Option<BudgetItem>,
    submitting: bool)

  /** The page as first rendered for a session. */
  function Initial(user: Option<string>): (p: Page)
    ensures p.user == user && p.items == [] && p.loading && p.error.None?
    ensures !p.modalOpen && p.editing.None? && !p.submitting
  {
    Page(user, [], true, None, false, None, false)
  }

  // ---------------------------------------------------------------- payloads

  /** `{ ...formData, modifiedAt: serverTimestamp() }`. */
  function DataToSave(form: FormData): (data: Payload)
    ensures data.Keys == form.Keys + {"modifiedAt"}
    ensures data["modifiedAt"] == ServerTimestamp
    ensures forall k :: k in form && k != "modifiedAt" ==> data[k] == Plain(form[k])
  {
    (map k | k in form :: Plain(form[k]))["modifiedAt" := ServerTimestamp]
  }

  /**
   * The write a submission sends: an edit updates the edited item's document
   * and puts back its original `createdAt`; a creation adds a document stamped
   * by the server. Each stamp overrides whatever the form carried under its key.
   */
  function PlanWrite(editing: Option<BudgetItem>, form: FormData): (w: Write)
    ensures editing.Some? <==> w.Update?
    ensures editing.Some? ==> w.id == editing.value.id
    ensures w.payload.Keys == form.Keys + {"createdAt", "modifiedAt"}
    ensures editing.Some? ==> w.payload["createdAt"] == Plain(Stamp(editing.value.createdAt))
    ensures editing.None? ==> w.payload["createdAt"] == ServerTimestamp
    ensures w.payload["modifiedAt"] == ServerTimestamp
    ensures forall k :: k in form && k != "createdAt" && k != "modifiedAt" ==> w.payload[k] == Plain(form[k])
  {
    match editing
    case Some(item) => Update(item.id, DataToSave(form)["createdAt" := Plain(Stamp(item.createdAt))])
    case None => Add(DataToSave(form)["createdAt" := ServerTimestamp])
  }

  /** The stored data of a payload once the backend has replaced each server stamp by its clock. */
  function Resolve(payload: Payload, now: Timestamp): (data: Record)
    ensures data.Keys == payload.Keys
    ensures forall k :: k in payload && payload[k].Plain? ==> data[k] == payload[k].v
    ensures forall k :: k in payload && payload[k].ServerTimestamp? ==> data[k] == Stamp(now)
  {
    map k | k in payload :: if payload[k].Plain? then payload[k].v else Stamp(now)
  }

  /**
   * Whether the backend carries out a write: it must accept it, an update must
   * name an existing document, and a new document's id must be unused.
   */
  predicate Accepted(store: Store, w: Write, backend: Backend) {
    && backend.accepts
    && match w
       case Update(id, _) => id in store
       case Add(_) => backend.newId !in store
  }

  /**
   * The store after a write. An accepted update overwrites only the fields it
   * supplies; an accepted add creates one new document; anything else leaves
   * the store as it was.
   */
  function Commit(store: Store, w: Write, backend: Backend): (r: Store)
    ensures !Accepted(store, w, backend) ==> r == store
    ensures Accepted(store, w, backend) && w.Update? ==>
      && r.Keys == store.Keys
      && (forall f :: f in w.payload ==> f in r[w.id] && r[w.id][f] == Resolve(w.payload, backend.now)[f])
      && (forall f :: f in store[w.id] && f !in w.payload ==> f in r[w.id] && r[w.id][f] == store[w.id][f])
      && (forall f :: f in r[w.id] ==> f in store[w.id] || f in w.payload)
    ensures Accepted(store, w, backend) && w.Add? ==>
      && r.Keys == store.Keys + {backend.newId}
      && r[backend.newId] == Resolve(w.payload, backend.now)
    ensures forall id :: id in store && (w.Add? || id != w.id) ==> id in r && r[id] == store[id]
  {
    if !Accepted(store, w, backend) then store
    else match w
      case Update(id, payload) => store[id := store[id] + Resolve(payload, backend.now)]
      case Add(payload) => store[backend.newId := Resolve(payload, backend.now)]
  }

  // -------------------------------------------------------- modal and submit

  /** Opens the modal, blank (`None`) or for editing the given item. */
  function OpenModal(p: Page, item: Option<BudgetItem>): (q: Page)
    ensures q.modalOpen && q.editing == item && q.error.None?
    ensures q == p.(modalOpen := q.modalOpen, editing := q.editing, error := q.error)
  {
    p.(editing := item, modalOpen := true, error := None)
  }

  function CloseModal(p: Page): (q: Page)
    ensures !q.modalOpen && q.editing.None? && q.error.None?
    ensures q == p.(modalOpen := q.modalOpen, editing := q.editing, error := q.error)
  {
    p.(modalOpen := false, editing := None, error := None)
  }

  /** The state while a submission is in flight: the form's `isSaving` is set, the old error cleared. */
  function BeginSubmit(p: Page): (q: Page)
    ensures q.submitting && q.error.None?
    ensures q == p.(submitting := q.submitting, error := q.error)
  {
    p.(submitting := true, error := None)
  }

  /** The state once the write has settled: closed on success, open with an error on failure. */
  function FinishSubmit(p: Page, accepted: bool): (q: Page)
    ensures !q.submitting
    ensures accepted ==> !q.modalOpen && q.editing.None? && q.error.None?
    ensures !accepted ==> q.modalOpen == p.modalOpen && q.editing == p.editing && q.error == Some(SAVE_FAILED)
    ensures q == p.(submitting := q.submitting, modalOpen := q.modalOpen, editing := q.editing, error := q.error)
  {
    var settled := if accepted then CloseModal(p) else p.(error := Some(SAVE_FAILED));
    settled.(submitting := false)
  }

  /**
   * `handleFormSubmit`: without a user nothing happens; otherwise the write
   * planned from the edited item and the form goes to the backend and the
   * page settles on its outcome.
   */
  function Submit(p: Page, store: Store, form: FormData, backend: Backend): (r: (Page, Store))
    ensures p.user.None? ==> r == (p, store)
    ensures p.user.Some? ==> !r.0.submitting
    ensures p.user.Some? && Accepted(store, PlanWrite(p.editing, form), backend) ==>
      !r.0.modalOpen && r.0.editing.None? && r.0.error.None?
    ensures p.user.Some? && !Accepted(store, PlanWrite(p.editing, form), backend) ==>
      r.0.modalOpen == p.modalOpen && r.0.editing == p.editing && r.0.error == Some(SAVE_FAILED) && r.1 == store
    ensures p.user.Some? ==> r.1 == Commit(store, PlanWrite(p.editing, form), backend)
    ensures r.0 == p.(submitting := r.0.submitting, modalOpen := r.0.modalOpen, editing := r.0.editing, error := r.0.error)
  {
    if p.user.None? then (p, store)
    else
      var inFlight := BeginSubmit(p);
      var w := PlanWrite(inFlight.editing, form);
      (FinishSubmit(inFlight, Accepted(store, w, backend)), Commit(store, w, backend))
  }

  /**
   * An accepted edit keeps the document's id and writes back the edited
   * item's `createdAt`, whatever the form carried; every other document is
   * untouched.
   */
  lemma EditKeepsCreatedAt(p: Page, store: Store, form: FormData, backend: Backend)
    requires p.user.Some? && p.editing.Some?
    requires Accepted(store, PlanWrite(p.editing, form), backend)
    ensures var store' := Submit(p, store, form, backend).1;
            && store'.Keys == store.Keys
            && store'[p.editing.value.id]["createdAt"] == Stamp(p.editing.value.createdAt)
            && (forall id :: id in store && id != p.editing.value.id ==> store'[id] == store[id])
  {
  }

  /**
   * Editing an item read from a stored document whose `createdAt` is a
   * timestamp leaves that stored `createdAt` exactly as it was.
   */
  lemma EditOfStoredItemKeepsCreatedAt(p: Page, store: Store, id: string, form: FormData, backend: Backend, now: Timestamp)
    requires id in store && Get(store[id], "createdAt").Stamp?
    requires p.user.Some? && p.editing == Some(Normalise(Doc(id, store[id]), now))
    requires Accepted(store, PlanWrite(p.editing, form), backend)
    ensures var store' := Submit(p, store, form, backend).1;
            id in store' && Get(store'[id], "createdAt") == Get(store[id], "createdAt")
  {
    EditKeepsCreatedAt(p, store, form, backend);
  }

  /** An accepted creation adds exactly one document, stamped with the backend's clock. */
  lemma CreateStampsServerTime(p: Page, store: Store, form: FormData, backend: Backend)
    requires p.user.Some? && p.editing.None?
    requires Accepted(store, PlanWrite(p.editing, form), backend)
    ensures var store' := Submit(p, store, form, backend).1;
            && store'.Keys == store.Keys + {backend.newId}
            && store'[backend.newId]["createdAt"] == Stamp(backend.now)
            && store'[backend.newId]["modifiedAt"] == Stamp(backend.now)
  {
  }

  /**
   * A rejected submission leaves the form as it was, so submitting it again to
   * an accepting backend sends the very same write and closes the modal.
   */
  lemma {:induction false} RetryAfterFailure(p: Page, store: Store, form: FormData, failing: Backend, accepting: Backend)
    requires p.user.Some?
    requires !Accepted(store, PlanWrite(p.editing, form), failing)
    requires Accepted(store, PlanWrite(p.editing, form), accepting)
    ensures var (p1, s1) := Submit(p, store, form, failing);
            && s1 == store
            && p1.error == Some(SAVE_FAILED)
            && PlanWrite(p1.editing, form) == PlanWrite(p.editing, form)
            && var (p2, s2) := Submit(p1, s1, form, accepting);
               && s2 == Commit(store, PlanWrite(p.editing, form), accepting)
               && !p2.modalOpen && p2.error.None? && !p2.submitting
  {
    var (p1, s1) := Submit(p, store, form, failing);
    assert p1.editing == p.editing && p1.user == p.user;
  }

  // ------------------------------------------------------------------ delete

  /**
   * `handleDeleteItem`: without a user or without confirmation nothing
   * happens; otherwise the document is deleted when the backend accepts, and
   * an error is shown when it does not. The displayed list is never changed
   * here: it follows the next snapshot.
   */
  function Delete(p: Page, store: Store, id: string, confirmed: bool, backend: Backend): (r: (Page, Store))
    ensures p.user.None? || !confirmed ==> r == (p, store)
    ensures p.user.Some? && confirmed && backend.accepts ==>
      && id !in r.1
      && r.1.Keys == store.Keys - {id}
      && (forall k :: k in r.1 ==> r.1[k] == store[k])
      && r.0.error.None?
    ensures p.user.Some? && confirmed && !backend.accepts ==> r.1 == store && r.0.error == Some(DELETE_FAILED)
    ensures r.0 == p.(error := r.0.error)
  {
    if p.user.None? || !confirmed then (p, store)
    else if backend.accepts then (p.(error := None), store - {id})
    else (p.(error := Some(DELETE_FAILED)), store)
  }

  // --------------------------------------------------------------- snapshots

  /**
   * The state effects of establishing the subscription: a missing user is
   * reported and loading stops; otherwise loading starts and the error clears.
   */
  function Subscribe(p: Page): (q: Page)
    ensures p.user.None? ==> !q.loading && q.error == Some(LOGIN_REQUIRED)
    ensures p.user.Some? ==> q.loading && q.error.None?
    ensures q == p.(loading := q.loading, error := q.error)
  {
    if p.user.None? then p.(loading := false, error := Some(LOGIN_REQUIRED))
    else p.(loading := true, error := None)
  }

  /** A delivered snapshot replaces the whole list with its normalised documents and ends loading. */
  function ApplySnapshot(p: Page, docs: seq<Doc>, now: Timestamp): (q: Page)
    ensures |q.items| == |docs|
    ensures forall i :: 0 <= i < |docs| ==> q.items[i] == Normalise(docs[i], now)
    ensures forall i :: 0 <= i < |docs| ==> q.items[i].id == docs[i].id && WellFormed(q.items[i])
    ensures !q.loading
    ensures q == p.(items := q.items, loading := q.loading)
  {
    p.(items := NormaliseSnapshot(docs, now), loading := false)
  }

  /** A failed subscription keeps the last list, shows an error and ends loading. */
  function SnapshotFailed(p: Page): (q: Page)
    ensures !q.loading && q.error == Some(LOAD_FAILED)
    ensures q == p.(loading := q.loading, error := q.error)
  {
    p.(error := Some(LOAD_FAILED), loading := false)
  }

  /** Which of the page's three renderings is shown. */
  datatype Screen = Spinner | ErrorOnly(message: string) | Overview

  function ScreenOf(p: Page): (s: Screen)
    ensures s.Spinner? <==> p.loading && |p.items| == 0
    ensures s.ErrorOnly? <==> !p.loading && |p.items| == 0 && p.error.Some?
    ensures s.ErrorOnly? ==> p.error == Some(s.message)
    ensures |p.items| > 0 ==> s == Overview
  {
    if p.loading && |p.items| == 0 then Spinner
    else if p.error.Some? && |p.items| == 0 then ErrorOnly(p.error.value)
    else Overview
  }

  /**
   * Before any snapshot the page shows the spinner; without a user the
   * subscription step replaces it by the login message.
   */
  lemma InitialScreens(user: string)
    ensures ScreenOf(Initial(Some(user))) == Spinner
    ensures ScreenOf(Subscribe(Initial(None))) == ErrorOnly(LOGIN_REQUIRED)
    ensures ScreenOf(Subscribe(Initial(Some(user)))) == Spinner
  {
  }

  /**
   * A snapshot re-delivering the stored form of the displayed items changes
   * nothing but the loading flag.
   */
  lemma {:induction false} SnapshotIsStable(p: Page, now: Timestamp)
    requires forall i :: 0 <= i < |p.items| ==> WellFormed(p.items[i])
    ensures ApplySnapshot(p, ExportAll(p.items), now) == p.(loading := false)
  {
    NormaliseSnapshotRoundTrip(p.items, now);
  }

  /** Delivering the same snapshot twice is the same as delivering it once. */
  lemma SnapshotIdempotent(p: Page, docs: seq<Doc>, now: Timestamp)
    ensures ApplySnapshot(ApplySnapshot(p, docs, now), docs, now) == ApplySnapshot(p, docs, now)
  {
  }

  /**
   * A load failure after a non-empty snapshot keeps the overview (with a
   * banner); before any item arrived it shows the load error alone.
   */
  lemma LoadFailureScreens(p: Page)
    ensures |p.items| > 0 ==> ScreenOf(SnapshotFailed(p)) == Overview
    ensures |p.items| == 0 ==> ScreenOf(SnapshotFailed(p)) == ErrorOnly(LOAD_FAILED)
  {
  }

  /** Once a snapshot arrived without error, even an empty list is the normal overview. */
  lemma EmptySnapshotIsOverview(p: Page, now: Timestamp)
    requires p.error.None?
    ensures ScreenOf(ApplySnapshot(p, [], now)) == Overview
  {
  }

  /**
   * A snapshot holding one planned "Venue" item estimated at 1000 shows the
   * totals 1000 estimated, 0 actual and 0 paid.
   */
  lemma VenueScenario(p: Page, now: Timestamp)
    ensures var data := map["description" := Str("Venue"), "estimatedCost" := Num(1000), "status" := Str("planned")];
            var q := ApplySnapshot(p, [Doc("1", data)], now);
            SummaryOf(q.items) == Summary(1000, 0, 0)
  {
    var data := map["description" := Str("Venue"), "estimatedCost" := Num(1000), "status" := Str("planned")];
    var items := ApplySnapshot(p, [Doc("1", data)], now).items;
    var item := items[0];
    assert items == [item];
    assert item.estimatedCost == 1000 && item.actualCost.None? && !IsPaid(item);
    assert [item][..0] == [];
    assert Filter([item], IsPaid) == [];
    assert items[..0] == [];
    assert TotalEstimated(items) == Fold([], Estimated) + Estimated(item) == 1000;
    assert TotalActual(items) == Fold([], Actual) + Actual(item) == 0;
    assert TotalPaid(items) == 0;
  }
}
