/**
 * The remote document store, reduced to what the services rely on: one
 * collection is a map from document id to document, written by
 * insert-with-id, whole-document set and field updates, and read through
 * query descriptors that are built here but never executed.
 *
 * Every remote call can fail; the `fails` parameter says whether this call
 * does. A failed call changes nothing and reports `StoreFailure`.
 */
module Store {
  import opened Js
  import opened Strings

  datatype Direction = Asc | Desc

  /** A `where(field, op, value)` clause. */
  datatype Clause =
    | FieldEq(field: string, value: Value)          // '=='
    | FieldAtLeast(field: string, value: Value)     // '>='
    | ArrayContains(field: string, value: Value)    // 'array-contains'

  /** `orderBy(field, direction)` */
  datatype Order = Order(field: string, direction: Direction)

  /** `query(collection(db, name), where..., orderBy(...), limit(n))`; the order and the limit are optional. */
  datatype Query = Query(collection: string, clauses: seq<Clause>, order: Option<Order>, limit: Option<nat>)

  /** Whether one `where` clause holds of a document; an inequality only compares values of one kind. */
  predicate ClauseHolds(c: Clause, d: Doc) {
    match c
    case FieldEq(f, v) => Get(d, f) == Some(v)
    case FieldAtLeast(f, v) =>
      f in d &&
      ((d[f].Num? && v.Num? && d[f].n >= v.n) || (d[f].Time? && v.Time? && d[f].millis >= v.millis))
    case ArrayContains(f, v) => f in d && d[f].Arr? && v in d[f].items
  }

  /** A document the query selects: every clause holds and the ordering field is present. */
  predicate Selected(q: Query, d: Doc) {
    (forall c :: c in q.clauses ==> ClauseHolds(c, d)) && (q.order.Some? ==> q.order.value.field in d)
  }

  /** `a` may come before `b` under the order (numbers and timestamps are compared). */
  predicate InOrder(o: Order, a: Doc, b: Doc) {
    match (Get(a, o.field), Get(b, o.field))
    case (Some(Num(x)), Some(Num(y))) => if o.direction == Desc then x >= y else x <= y
    case (Some(Time(x)), Some(Time(y))) => if o.direction == Desc then x >= y else x <= y
    case _ => true
  }

  /** Adding the id to each document keeps the order of an answer sorted on another field. */
  lemma MaterializeKeepsOrder(o: Order, page: seq<Entry>)
    requires o.field != "id"
    requires forall i :: 0 <= i < |page| - 1 ==> InOrder(o, page[i].data, page[i + 1].data)
    ensures forall i :: 0 <= i < |page| - 1 ==> InOrder(o, Materialize(page)[i], Materialize(page)[i + 1])
  {
    var shown := Materialize(page);
    forall i | 0 <= i < |page| - 1
      ensures InOrder(o, shown[i], shown[i + 1])
    {
      assert Get(shown[i], o.field) == Get(page[i].data, o.field);
      assert Get(shown[i + 1], o.field) == Get(page[i + 1].data, o.field);
      assert InOrder(o, page[i].data, page[i + 1].data);
    }
  }

  /**
   * When every document holds a timestamp in the ordering field, an order
   * that holds between neighbours holds between any earlier and later
   * document (between values of different kinds the order says nothing,
   * so it chains only within one kind).
   */
  lemma {:induction false} TimesInOrder(o: Order, docs: seq<Doc>, i: int, j: int)
    requires forall k :: 0 <= k < |docs| ==> o.field in docs[k] && docs[k][o.field].Time?
    requires forall k :: 0 <= k < |docs| - 1 ==> InOrder(o, docs[k], docs[k + 1])
    requires 0 <= i < j < |docs|
    ensures InOrder(o, docs[i], docs[j])
    decreases j - i
  {
    if i + 1 < j {
      TimesInOrder(o, docs, i + 1, j);
      assert InOrder(o, docs[i], docs[i + 1]);
    }
  }

  /**
   * What the store promises about a query's answer `page` over the documents
   * `coll` of the queried collection: each entry is a stored document the
   * query selects, no id repeats, the entries are in the query's order, there
   * are at most `limit` of them, and when the limit is not reached every
   * selected document is there.
   */
  predicate Answers(q: Query, coll: map<string, Doc>, page: seq<Entry>) {
    && (forall i :: 0 <= i < |page| ==> page[i].id in coll && page[i].data == coll[page[i].id] && Selected(q, page[i].data))
    && (forall i, j :: 0 <= i < j < |page| ==> page[i].id != page[j].id)
    && (q.order.Some? ==> forall i :: 0 <= i < |page| - 1 ==> InOrder(q.order.value, page[i].data, page[i + 1].data))
    && (q.limit.Some? ==> |page| <= q.limit.value)
    && ((q.limit.None? || |page| < q.limit.value) ==>
          forall id :: id in coll && Selected(q, coll[id]) ==> exists i :: 0 <= i < |page| && page[i].id == id)
  }

  /** The ids of the selected documents. */
  function SelectedIds(q: Query, coll: map<string, Doc>): set<string> {
    set id | id in coll && Selected(q, coll[id])
  }

  /** Without a limit, the answer holds exactly the selected documents, once each. */
  lemma AnswerSize(q: Query, coll: map<string, Doc>, page: seq<Entry>)
    requires q.limit.None? && Answers(q, coll, page)
    ensures |page| == |SelectedIds(q, coll)|
  {
    var ids := IdsOf(page);
    assert ids == SelectedIds(q, coll) by {
      forall id | id in SelectedIds(q, coll) ensures id in ids {
        var i :| 0 <= i < |page| && page[i].id == id;
        IdsOfHas(page, i);
      }
      forall id | id in ids ensures id in SelectedIds(q, coll) {
        IdsOfFrom(page, id);
      }
    }
    DistinctIdsCount(page);
  }

  function IdsOf(page: seq<Entry>): set<string> {
    if page == [] then {} else {page[0].id} + IdsOf(page[1..])
  }

  lemma {:induction false} IdsOfHas(page: seq<Entry>, i: int)
    requires 0 <= i < |page|
    ensures page[i].id in IdsOf(page)
  {
    if i > 0 {
      IdsOfHas(page[1..], i - 1);
    }
  }

  lemma {:induction false} IdsOfFrom(page: seq<Entry>, id: string)
    requires id in IdsOf(page)
    ensures exists i :: 0 <= i < |page| && page[i].id == id
  {
    if page[0].id != id {
      IdsOfFrom(page[1..], id);
      var i :| 0 <= i < |page[1..]| && page[1..][i].id == id;
      assert page[i + 1].id == id;
    }
  }

  lemma {:induction false} IdsOfMissing(page: seq<Entry>, id: string)
    requires forall i :: 0 <= i < |page| ==> page[i].id != id
    ensures id !in IdsOf(page)
  {
    if page != [] {
      IdsOfMissing(page[1..], id);
    }
  }

  /** Distinct ids: as many ids as entries. */
  lemma {:induction false} DistinctIdsCount(page: seq<Entry>)
    requires forall i, j :: 0 <= i < j < |page| ==> page[i].id != page[j].id
    ensures |IdsOf(page)| == |page|
  {
    if page != [] {
      DistinctIdsCount(page[1..]);
      assert forall i :: 0 <= i < |page[1..]| ==> page[1..][i].id == page[i + 1].id;
      IdsOfMissing(page[1..], page[0].id);
    }
  }

  /** The numeric value an `increment` starts from: a missing or non-numeric field counts as 0. */
  function NumOrZero(v: Option<Value>): int {
    if v.Some? && v.value.Num? then v.value.n else 0
  }

  /**
   * `{ [field]: increment(1) }` applied to one document. The store sets a
   * missing or non-numeric field to the operand, which is what counting it
   * as 0 gives.
   */
  function Incremented(d: Doc, field: string): (r: Doc)
    ensures r.Keys == d.Keys + {field}
    ensures r[field] == Num(NumOrZero(Get(d, field)) + 1)
    ensures forall k :: k in d && k != field ==> r[k] == d[k]
  {
    d[field := Num(NumOrZero(Get(d, field)) + 1)]
  }

  /**
   * `{ [parent + '.' + key]: increment(1) }` applied to one document: the
   * counter under `key` inside the map `parent` goes up by one; a missing or
   * non-map parent becomes a map holding just that counter.
   */
  function IncrementedNested(d: Doc, parent: string, key: string): (r: Doc)
    ensures r.Keys == d.Keys + {parent}
    ensures r[parent].Obj?
    ensures r[parent].fields.Keys == (if parent in d && d[parent].Obj? then d[parent].fields.Keys else {}) + {key}
    ensures r[parent].fields[key] == Num(NumOrZero(if parent in d && d[parent].Obj? then Get(d[parent].fields, key) else None) + 1)
    ensures parent in d && d[parent].Obj? ==>
      forall k :: k in d[parent].fields && k != key ==> r[parent].fields[k] == d[parent].fields[k]
    ensures forall k :: k in d && k != parent ==> r[k] == d[k]
  {
    var inner := if parent in d && d[parent].Obj? then d[parent].fields else map[];
    d[parent := Obj(Incremented(inner, key))]
  }

  /** The signed-in account: its id, its e-mail and its display name, each possibly unset. */
  datatype User = User(uid: string, email: Option<string>, displayName: Option<string>)

  /** `user.displayName` is truthy. */
  predicate HasDisplayName(u: User) {
    u.displayName.Some? && u.displayName.value != ""
  }

  /**
   * `displayName || email?.split('@')[0] || fallback`: an empty display
   * name, a missing e-mail and an empty local part all fall through.
   */
  function NameOr(user: User, fallback: string): (r: string)
    ensures fallback != "" ==> r != ""
    ensures HasDisplayName(user) ==> r == user.displayName.value
    ensures !HasDisplayName(user) && user.email.None? ==> r == fallback
    ensures !HasDisplayName(user) && r != fallback ==>
      user.email.Some? && r <= user.email.value && '@' !in r
    ensures !HasDisplayName(user) && user.email.Some? && user.email.value != "" && '@' !in user.email.value ==>
      r == user.email.value
    ensures !HasDisplayName(user) && user.email.Some? ==>
      r == (if LocalPart(user.email.value) != "" then LocalPart(user.email.value) else fallback)
  {
    if HasDisplayName(user) then user.displayName.value
    else if user.email.Some? && LocalPart(user.email.value) != "" then LocalPart(user.email.value)
    else fallback
  }

  class Collection {
    var docs: map<string, Doc>

    constructor (initial: map<string, Doc>)
      ensures docs == initial
    {
      docs := initial;
    }

    /** `addDoc`: stores `d` under the fresh id the store picked. */
    method Add(id: string, d: Doc, fails: bool) returns (r: Result<string>)
      requires id !in docs
      modifies this
      ensures fails ==> r == Err(StoreFailure) && docs == old(docs)
      ensures !fails ==> r == Ok(id) && docs == old(docs)[id := d]
    {
      if fails {
        return Err(StoreFailure);
      }
      docs := docs[id := d];
      return Ok(id);
    }

    /** `setDoc`: stores `d` under `id`, replacing whatever was there. */
    method Put(id: string, d: Doc, fails: bool) returns (r: Result<()>)
      modifies this
      ensures fails ==> r == Err(StoreFailure) && docs == old(docs)
      ensures !fails ==> r == Ok(()) && docs == old(docs)[id := d]
    {
      if fails {
        return Err(StoreFailure);
      }
      docs := docs[id := d];
      return Ok(());
    }

    /** `updateDoc(ref, { [field]: v })`; updating a missing document fails. */
    method SetField(id: string, field: string, v: Value, fails: bool) returns (r: Result<()>)
      modifies this
      ensures r.Err? ==> docs == old(docs)
      ensures r == Err(NotFound) <==> !fails && id !in old(docs)
      ensures r.Ok? <==> !fails && id in old(docs)
      ensures r.Ok? ==> docs == old(docs)[id := old(docs)[id][field := v]]
    {
      if fails {
        return Err(StoreFailure);
      }
      if id !in docs {
        return Err(NotFound);
      }
      docs := docs[id := docs[id][field := v]];
      return Ok(());
    }

    /** `updateDoc(ref, { [field]: increment(1) })`; updating a missing document fails. */
    method Increment(id: string, field: string, fails: bool) returns (r: Result<()>)
      modifies this
      ensures r.Err? ==> docs == old(docs)
      ensures r == Err(NotFound) <==> !fails && id !in old(docs)
      ensures r.Ok? <==> !fails && id in old(docs)
      ensures r.Ok? ==> docs == old(docs)[id := Incremented(old(docs)[id], field)]
    {
      if fails {
        return Err(StoreFailure);
      }
      if id !in docs {
        return Err(NotFound);
      }
      docs := docs[id := Incremented(docs[id], field)];
      return Ok(());
    }

    /** `updateDoc(ref, { [parent + '.' + key]: increment(1) })` */
    method IncrementNested(id: string, parent: string, key: string, fails: bool) returns (r: Result<()>)
      modifies this
      ensures r.Err? ==> docs == old(docs)
      ensures r == Err(NotFound) <==> !fails && id !in old(docs)
      ensures r.Ok? <==> !fails && id in old(docs)
      ensures r.Ok? ==> docs == old(docs)[id := IncrementedNested(old(docs)[id], parent, key)]
    {
      if fails {
        return Err(StoreFailure);
      }
      if id !in docs {
        return Err(NotFound);
      }
      docs := docs[id := IncrementedNested(docs[id], parent, key)];
      return Ok(());
    }
  }
}
