/**
 * The JavaScript values that flow between the views and the document store,
 * and the few language-level operations the application applies to them:
 * truthiness, optional-chained `includes`, object spread and `Array.filter`
 * with a callback that may throw.
 */
module Js {
  import opened Strings

  datatype Option<T> = None | Some(value: T)

  /** The exceptions the modelled code can raise or receive. */
  datatype Error =
    | TypeError        // a method called on a value that does not have it
    | ReferenceError   // an identifier that is not in scope
    | NotFound         // an update of a document that does not exist
    | StoreFailure     // any failure reported by the remote store or the network

  datatype Result<T> = Ok(value: T) | Err(error: Error)

  /**
   * A stored or fetched value. Numbers are integers (no fractions, NaN or -0);
   * `Time` is a store timestamp in milliseconds.
   */
  datatype Value =
    | Null
    | Bool(b: bool)
    | Num(n: int)
    | Str(s: string)
    | Arr(items: seq<Value>)
    | Obj(fields: map<string, Value>)
    | Time(millis: int)

  /** A schemaless document, as the store holds it and as the views see it. */
  type Doc = map<string, Value>

  /** A document id and its data, as one entry of a query snapshot. */
  datatype Entry = Entry(id: string, data: Doc)

  /** `d.key`, where `None` stands for `undefined`. */
  function Get(d: Doc, key: string): Option<Value> {
    if key in d then Some(d[key]) else None
  }

  /** JavaScript truthiness of a possibly absent value. */
  predicate Truthy(v: Option<Value>) {
    match v
    case None => false
    case Some(Null) => false
    case Some(Bool(b)) => b
    case Some(Num(n)) => n != 0
    case Some(Str(s)) => s != ""
    case Some(_) => true
  }

  /** `String(v)` for the primitive values that are ever passed to `includes`. */
  function ToStr(v: Value): string
    requires v.Str? || v.Num?
  {
    if v.Str? then v.s else IntToString(v.n)
  }

  /**
   * `v?.includes(needle)` used as a boolean: an absent or null value gives
   * `undefined` (false), an array is searched for an element equal to the
   * needle, a string for the needle's text, and any other value has no
   * `includes` method, so the call throws a TypeError.
   */
  function Includes(v: Option<Value>, needle: Value): (r: Result<bool>)
    requires needle.Str? || needle.Num?
    ensures r.Err? <==> v.Some? && !(v.value.Null? || v.value.Arr? || v.value.Str?)
    ensures r.Err? ==> r.error == TypeError
    ensures (v.Some? && v.value.Str?) ==> r == Ok(IsInfix(ToStr(needle), v.value.s))
    ensures (v.None? || v == Some(Null)) ==> r == Ok(false)
    ensures (v.Some? && v.value.Arr?) ==> r == Ok(needle in v.value.items)
  {
    match v
    case None => Ok(false)
    case Some(Null) => Ok(false)
    case Some(Arr(xs)) => Ok(needle in xs)
    case Some(Str(s)) => Ok(IsInfix(ToStr(needle), s))
    case Some(_) => Err(TypeError)
  }

  /** An array of strings as a stored value. */
  function Strs(xs: seq<string>): seq<Value> {
    if xs == [] then [] else [Str(xs[0])] + Strs(xs[1..])
  }

  /** The array holds a string exactly when the list does, and nothing but strings. */
  lemma {:induction false} StrsHas(xs: seq<string>)
    ensures |Strs(xs)| == |xs|
    ensures forall x :: Str(x) in Strs(xs) <==> x in xs
    ensures forall v :: v in Strs(xs) ==> v.Str?
  {
    if xs != [] {
      StrsHas(xs[1..]);
      assert xs == [xs[0]] + xs[1..];
    }
  }

  /** `{ id, ...data }`: the id comes first, so a field named "id" in the data wins. */
  function WithId(id: string, data: Doc): (r: Doc)
    ensures r.Keys == data.Keys + {"id"}
    ensures r["id"] == (if "id" in data then data["id"] else Str(id))
    ensures forall k :: k in data ==> r[k] == data[k]
  {
    map["id" := Str(id)] + data
  }

  /** `snapshot.docs.map(doc => ({ id: doc.id, ...doc.data() }))` */
  function Materialize(page: seq<Entry>): (r: seq<Doc>)
    ensures |r| == |page|
    ensures forall i :: 0 <= i < |page| ==> r[i] == WithId(page[i].id, page[i].data)
  {
    if page == [] then [] else [WithId(page[0].id, page[0].data)] + Materialize(page[1..])
  }

  /**
   * `docs.filter(test)` where the callback may throw: the first document (in
   * order) whose test throws makes the whole call throw; otherwise the
   * documents whose test is true, in order.
   */
  function TryFilter(docs: seq<Doc>, test: Doc -> Result<bool>): (r: Result<seq<Doc>>)
    ensures r.Err? <==> exists i :: 0 <= i < |docs| && test(docs[i]).Err?
    ensures r.Err? ==> exists i :: 0 <= i < |docs| && test(docs[i]) == Err(r.error) && forall j :: 0 <= j < i ==> test(docs[j]).Ok?
    ensures r.Ok? ==> |r.value| <= |docs|
    ensures r.Ok? ==> forall d :: d in r.value ==> d in docs && test(d) == Ok(true)
    ensures r.Ok? ==> forall d :: d in docs && test(d) == Ok(true) ==> d in r.value
  {
    if docs == [] then Ok([])
    else
      match test(docs[0])
      case Err(e) => Err(e)
      case Ok(keep) =>
        var rest := TryFilter(docs[1..], test);
        assert forall i :: 1 <= i < |docs| ==> docs[i] == docs[1..][i - 1];
        if rest.Err? then rest
        else if keep then Ok([docs[0]] + rest.value)
        else Ok(rest.value)
  }

  /** `r` keeps some of the elements of `s`, in their original order. */
  predicate IsSublist<T(==)>(r: seq<T>, s: seq<T>)
    decreases |s|
  {
    r == [] || (s != [] && ((r[0] == s[0] && IsSublist(r[1..], s[1..])) || IsSublist(r, s[1..])))
  }

  /** A filter keeps the kept documents in their original order. */
  lemma {:induction false} TryFilterIsSublist(docs: seq<Doc>, test: Doc -> Result<bool>)
    requires TryFilter(docs, test).Ok?
    ensures IsSublist(TryFilter(docs, test).value, docs)
  {
    if docs != [] {
      TryFilterIsSublist(docs[1..], test);
    }
  }

  /**
   * A relation that holds between every earlier and later document still
   * holds between every earlier and later kept document.
   */
  lemma {:induction false} TryFilterKeepsPairs(docs: seq<Doc>, test: Doc -> Result<bool>, rel: (Doc, Doc) -> bool)
    requires TryFilter(docs, test).Ok?
    requires forall i, j :: 0 <= i < j < |docs| ==> rel(docs[i], docs[j])
    ensures var kept := TryFilter(docs, test).value;
      forall i, j :: 0 <= i < j < |kept| ==> rel(kept[i], kept[j])
  {
    if docs != [] {
      var rest := docs[1..];
      assert forall i, j :: 0 <= i < j < |rest| ==> rest[i] == docs[i + 1] && rest[j] == docs[j + 1];
      TryFilterKeepsPairs(rest, test, rel);
      var tail := TryFilter(rest, test).value;
      if test(docs[0]) == Ok(true) {
        var kept := [docs[0]] + tail;
        assert TryFilter(docs, test).value == kept;
        forall i, j | 0 <= i < j < |kept| ensures rel(kept[i], kept[j]) {
          if i == 0 {
            assert kept[j] in rest;
            var k :| 0 <= k < |rest| && rest[k] == kept[j];
            assert rel(docs[0], docs[k + 1]);
          } else {
            assert kept[i] == tail[i - 1] && kept[j] == tail[j - 1];
          }
        }
      }
    }
  }

  /** The test of a filter pass that is switched off: it keeps everything. */
  function KeepAll(d: Doc): Result<bool> { Ok(true) }

  /** `p(d) && q(d)` with JavaScript's short circuit: `q` runs only when `p` passed. */
  function AndThen(p: Doc -> Result<bool>, q: Doc -> Result<bool>): Doc -> Result<bool> {
    d => if p(d) == Ok(true) then q(d) else p(d)
  }

  /** A pass that is switched off keeps the list as it is. */
  lemma {:induction false} TryFilterKeepAll(docs: seq<Doc>)
    ensures TryFilter(docs, KeepAll) == Ok(docs)
  {
    if docs != [] {
      TryFilterKeepAll(docs[1..]);
      assert [docs[0]] + docs[1..] == docs;
    }
  }

  /** `kept.filter(q)` applied to the outcome of an earlier filter, passing its exception on. */
  function ThenFilter(kept: Result<seq<Doc>>, q: Doc -> Result<bool>): Result<seq<Doc>> {
    match kept
    case Err(e) => Err(e)
    case Ok(docs) => TryFilter(docs, q)
  }

  /**
   * Two successive filters are one filter by the short-circuit conjunction
   * `p(d) && q(d)` (the second test runs only on what passed the first):
   * one throws exactly when the other does, and otherwise they keep the
   * same documents.
   */
  lemma {:induction false} TryFilterTwice(docs: seq<Doc>, p: Doc -> Result<bool>, q: Doc -> Result<bool>, pq: Doc -> Result<bool>)
    requires forall d :: pq(d) == (if p(d) == Ok(true) then q(d) else p(d))
    ensures ThenFilter(TryFilter(docs, p), q).Ok? <==> TryFilter(docs, pq).Ok?
    ensures ThenFilter(TryFilter(docs, p), q).Ok? ==> ThenFilter(TryFilter(docs, p), q) == TryFilter(docs, pq)
  {
    if docs != [] {
      var d, rest := docs[0], docs[1..];
      TryFilterTwice(rest, p, q, pq);
      if p(d).Ok? && TryFilter(rest, p).Ok? {
        var kept := TryFilter(rest, p).value;
        if p(d).value {
          assert TryFilter(docs, p) == Ok([d] + kept);
          assert ([d] + kept)[0] == d && ([d] + kept)[1..] == kept;
        } else {
          assert TryFilter(docs, p) == Ok(kept);
        }
      }
    }
  }

  /**
   * When no test throws, three successive filters keep what the single
   * filter by "all three tests are true" keeps.
   */
  lemma TryFilterThrice(docs: seq<Doc>, p: Doc -> Result<bool>, q: Doc -> Result<bool>, r: Doc -> Result<bool>, all: Doc -> Result<bool>)
    requires forall i :: 0 <= i < |docs| ==> p(docs[i]).Ok? && q(docs[i]).Ok? && r(docs[i]).Ok?
    requires forall d :: all(d) == Ok(p(d) == Ok(true) && q(d) == Ok(true) && r(d) == Ok(true))
    ensures ThenFilter(ThenFilter(TryFilter(docs, p), q), r) == TryFilter(docs, all)
  {
    var pq := AndThen(p, q);
    var pqr := AndThen(pq, r);
    TryFilterTwice(docs, p, q, pq);
    TryFilterTwice(docs, pq, r, pqr);
    TryFilterAgree(docs, pqr, all);
  }

  /**
   * When no test throws, the order in which two filters run does not matter.
   */
  lemma TryFilterCommute(docs: seq<Doc>, p: Doc -> Result<bool>, q: Doc -> Result<bool>)
    requires forall i :: 0 <= i < |docs| ==> p(docs[i]).Ok? && q(docs[i]).Ok?
    ensures TryFilter(docs, p).Ok? && TryFilter(docs, q).Ok?
    ensures TryFilter(TryFilter(docs, p).value, q) == TryFilter(TryFilter(docs, q).value, p)
  {
    var pq := (d: Doc) => if p(d) == Ok(true) then q(d) else p(d);
    var qp := (d: Doc) => if q(d) == Ok(true) then p(d) else q(d);
    forall i | 0 <= i < |docs|
      ensures pq(docs[i]).Ok? && qp(docs[i]).Ok? && pq(docs[i]).value == qp(docs[i]).value
    {
      assert p(docs[i]).Ok? && q(docs[i]).Ok?;
    }
    TryFilterAgree(docs, pq, qp);
    assert TryFilter(docs, pq).Ok?;
    TryFilterTwice(docs, p, q, pq);
    TryFilterTwice(docs, q, p, qp);
  }

  /** Filters whose tests agree wherever they are used give the same result. */
  lemma {:induction false} TryFilterAgree(docs: seq<Doc>, p: Doc -> Result<bool>, q: Doc -> Result<bool>)
    requires forall i :: 0 <= i < |docs| ==> p(docs[i]).Ok? && q(docs[i]).Ok? && p(docs[i]).value == q(docs[i]).value
    ensures TryFilter(docs, p) == TryFilter(docs, q)
  {
    if docs != [] {
      assert forall i :: 1 <= i < |docs| ==> docs[i] == docs[1..][i - 1];
      TryFilterAgree(docs[1..], p, q);
    }
  }
}
