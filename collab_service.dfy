/**
 * The collab data-access layer: creating a collab, fetching the newest page
 * of collabs and narrowing it on the client by type, branch and year, the
 * status update, and the show-interest call.
 */
module CollabService {
  import opened Js
  import opened Store

  /** `{ ...collabData, createdAt: Timestamp.now() }`: the stamp overrides any caller value. */
  function StampCollab(data: Doc, now: int): (r: Doc)
    ensures r.Keys == data.Keys + {"createdAt"}
    ensures r["createdAt"] == Time(now)
    ensures forall k :: k in data && k != "createdAt" ==> r[k] == data[k]
  {
    data + map["createdAt" := Time(now)]
  }

  /**
   * `createCollab(collabData)`: stores the stamped document under the id the
   * store picks and returns `{ id, ...collab }`; a store failure is passed on.
   */
  method CreateCollab(store: Collection, data: Doc, newId: string, now: int, fails: bool) returns (r: Result<Doc>)
    requires newId !in store.docs
    modifies store
    ensures fails ==> r == Err(StoreFailure) && store.docs == old(store.docs)
    ensures !fails ==> r == Ok(WithId(newId, StampCollab(data, now)))
    ensures !fails ==> store.docs == old(store.docs)[newId := StampCollab(data, now)]
  {
    var collab := StampCollab(data, now);
    var added := store.Add(newId, collab, fails);
    if added.Err? {
      return Err(added.error);
    }
    return Ok(WithId(newId, collab));
  }

  /** The query `fetchCollabs` issues: newest first, at most 50. */
  const CollabsQuery := Query("collabs", [], Some(Order("createdAt", Desc)), Some(50))

  /** The optional filter values; `None` is a missing key of the `filters` object. */
  datatype Filters = Filters(kind: Option<string>, branch: Option<string>, year: Option<string>)

  /** `filters.x && filters.x !== 'all'` */
  predicate Active(f: Option<string>) {
    f.Some? && f.value != "" && f.value != "all"
  }

  /** `c => c.type === filters.type` */
  function KindTest(kind: string): Doc -> Result<bool> {
    d => Ok(Get(d, "type") == Some(Str(kind)))
  }

  /** `c => c.branches?.includes(filters.branch)` */
  function BranchTest(branch: string): Doc -> Result<bool> {
    d => Includes(Get(d, "branches"), Str(branch))
  }

  /** `c => c.targetYears?.includes(filters.year)`: the year is compared as given, a string. */
  function YearTest(year: string): Doc -> Result<bool> {
    d => Includes(Get(d, "targetYears"), Str(year))
  }

  /** A pass runs only when its filter value is active. */
  function Pass(f: Option<string>, test: string -> (Doc -> Result<bool>)): Doc -> Result<bool> {
    if Active(f) then test(f.value) else KeepAll
  }

  /** The three passes as one test: type, then branch, then year, with short circuit. */
  function Matches(filters: Filters): Doc -> Result<bool> {
    AndThen(AndThen(Pass(filters.kind, KindTest), Pass(filters.branch, BranchTest)), Pass(filters.year, YearTest))
  }

  /**
   * `fetchCollabs(filters)`: runs `CollabsQuery` (the store's answer is
   * `run(CollabsQuery)`), then narrows the page in three successive passes.
   * The result is the single filter by `Matches(filters)`; a store failure
   * or a TypeError from a pass is passed on.
   */
  method FetchCollabs(filters: Filters, run: Query -> Result<seq<Entry>>) returns (r: Result<seq<Doc>>)
    ensures run(CollabsQuery).Err? ==> r == Err(run(CollabsQuery).error)
    ensures run(CollabsQuery).Ok? ==>
      var spec := TryFilter(Materialize(run(CollabsQuery).value), Matches(filters));
      && (r.Ok? <==> spec.Ok?)
      && (r.Ok? ==> r == spec)
      && (r.Err? ==> r.error == TypeError)
  {
    var snapshot := run(CollabsQuery);
    if snapshot.Err? {
      return Err(snapshot.error);
    }
    var page := Materialize(snapshot.value);
    ghost var p1, p2, p3 := Pass(filters.kind, KindTest), Pass(filters.branch, BranchTest), Pass(filters.year, YearTest);
    var collabs := page;
    if Active(filters.kind) {
      collabs := TryFilter(collabs, KindTest(filters.kind.value)).value;
    } else {
      TryFilterKeepAll(collabs);
    }
    assert TryFilter(page, p1) == Ok(collabs);
    if Active(filters.branch) {
      var kept := TryFilter(collabs, BranchTest(filters.branch.value));
      if kept.Err? {
        PassesCompose(page, filters);
        PassErrors(collabs, filters.branch.value);
        return Err(kept.error);
      }
      collabs := kept.value;
    } else {
      TryFilterKeepAll(collabs);
    }
    assert ThenFilter(TryFilter(page, p1), p2) == Ok(collabs);
    if Active(filters.year) {
      var kept := TryFilter(collabs, YearTest(filters.year.value));
      if kept.Err? {
        PassesCompose(page, filters);
        PassErrors(collabs, filters.year.value);
        return Err(kept.error);
      }
      collabs := kept.value;
    } else {
      TryFilterKeepAll(collabs);
    }
    assert ThenFilter(ThenFilter(TryFilter(page, p1), p2), p3) == Ok(collabs);
    PassesCompose(page, filters);
    return Ok(collabs);
  }

  /** The three successive passes are the single filter by `Matches`. */
  lemma PassesCompose(page: seq<Doc>, filters: Filters)
    ensures var p1, p2, p3 := Pass(filters.kind, KindTest), Pass(filters.branch, BranchTest), Pass(filters.year, YearTest);
      var chain := ThenFilter(ThenFilter(TryFilter(page, p1), p2), p3);
      && (chain.Ok? <==> TryFilter(page, Matches(filters)).Ok?)
      && (chain.Ok? ==> chain == TryFilter(page, Matches(filters)))
  {
    var p1, p2, p3 := Pass(filters.kind, KindTest), Pass(filters.branch, BranchTest), Pass(filters.year, YearTest);
    var p12 := AndThen(p1, p2);
    TryFilterTwice(page, p1, p2, p12);
    TryFilterTwice(page, p12, p3, Matches(filters));
  }

  /** A branch or year pass can only throw a TypeError. */
  lemma PassErrors(docs: seq<Doc>, value: string)
    ensures TryFilter(docs, BranchTest(value)).Err? ==> TryFilter(docs, BranchTest(value)).error == TypeError
    ensures TryFilter(docs, YearTest(value)).Err? ==> TryFilter(docs, YearTest(value)).error == TypeError
  {
  }

  /**
   * What the single filter keeps: an order-preserving sublist of the page,
   * no longer than it; with an active type filter only collabs of that type;
   * with an active branch filter only collabs that have a `branches` value
   * containing the branch; with an active year filter only collabs that have
   * a `targetYears` value containing the year string. With no active filter
   * the page is returned whole.
   */
  lemma MatchesKeeps(filters: Filters, page: seq<Doc>)
    requires TryFilter(page, Matches(filters)).Ok?
    ensures var kept := TryFilter(page, Matches(filters)).value;
      && IsSublist(kept, page) && |kept| <= |page|
      && (Active(filters.kind) ==> forall d :: d in kept ==> Get(d, "type") == Some(Str(filters.kind.value)))
      && (Active(filters.branch) ==> forall d :: d in kept ==>
            "branches" in d && Includes(Get(d, "branches"), Str(filters.branch.value)) == Ok(true))
      && (Active(filters.year) ==> forall d :: d in kept ==>
            "targetYears" in d && Includes(Get(d, "targetYears"), Str(filters.year.value)) == Ok(true))
      && (!Active(filters.kind) && !Active(filters.branch) && !Active(filters.year) ==> kept == page)
  {
    var kept := TryFilter(page, Matches(filters)).value;
    TryFilterIsSublist(page, Matches(filters));
    if !Active(filters.kind) && !Active(filters.branch) && !Active(filters.year) {
      TryFilterAgree(page, Matches(filters), KeepAll);
      TryFilterKeepAll(page);
    }
  }

  /**
   * No collab that passes every active filter is lost, and each collab is
   * kept exactly when it passes all of them (when no pass throws).
   */
  lemma MatchesComplete(filters: Filters, page: seq<Doc>, d: Doc)
    requires TryFilter(page, Matches(filters)).Ok?
    requires d in page
    ensures d in TryFilter(page, Matches(filters)).value <==>
      && (Active(filters.kind) ==> Get(d, "type") == Some(Str(filters.kind.value)))
      && (Active(filters.branch) ==> Includes(Get(d, "branches"), Str(filters.branch.value)) == Ok(true))
      && (Active(filters.year) ==> Includes(Get(d, "targetYears"), Str(filters.year.value)) == Ok(true))
  {
  }

  /**
   * The pass order does not matter: when no test throws on the page,
   * filtering by branch before type gives the same list as type before branch.
   */
  lemma PassOrderIrrelevant(filters: Filters, page: seq<Doc>)
    requires forall i :: 0 <= i < |page| ==>
      Pass(filters.kind, KindTest)(page[i]).Ok? && Pass(filters.branch, BranchTest)(page[i]).Ok?
    ensures var p1, p2 := Pass(filters.kind, KindTest), Pass(filters.branch, BranchTest);
      TryFilter(TryFilter(page, p1).value, p2) == TryFilter(TryFilter(page, p2).value, p1)
  {
    TryFilterCommute(page, Pass(filters.kind, KindTest), Pass(filters.branch, BranchTest));
  }

  /** The three filter passes, to speak of them in any order. */
  datatype FilterPass = TypePass | BranchPass | YearPass

  function PassOf(filters: Filters, k: FilterPass): Doc -> Result<bool> {
    match k
    case TypePass => Pass(filters.kind, KindTest)
    case BranchPass => Pass(filters.branch, BranchTest)
    case YearPass => Pass(filters.year, YearTest)
  }

  /**
   * When no test throws on the page, running the three passes in any order
   * keeps the same collabs as the type, branch, year order of the source.
   */
  lemma AnyPassOrder(filters: Filters, page: seq<Doc>, a: FilterPass, b: FilterPass, c: FilterPass)
    requires a != b && b != c && a != c
    requires forall i :: 0 <= i < |page| ==>
      Pass(filters.kind, KindTest)(page[i]).Ok? && Pass(filters.branch, BranchTest)(page[i]).Ok? && Pass(filters.year, YearTest)(page[i]).Ok?
    ensures ThenFilter(ThenFilter(TryFilter(page, PassOf(filters, a)), PassOf(filters, b)), PassOf(filters, c)) == TryFilter(page, Matches(filters))
  {
    var p1, p2, p3 := Pass(filters.kind, KindTest), Pass(filters.branch, BranchTest), Pass(filters.year, YearTest);
    var all := (d: Doc) => Ok(p1(d) == Ok(true) && p2(d) == Ok(true) && p3(d) == Ok(true));
    var pa, pb, pc := PassOf(filters, a), PassOf(filters, b), PassOf(filters, c);
    assert {pa, pb, pc} == {p1, p2, p3} by {
      match a
      case TypePass => {}
      case BranchPass => {}
      case YearPass => {}
    }
    forall i | 0 <= i < |page| ensures pa(page[i]).Ok? && pb(page[i]).Ok? && pc(page[i]).Ok? {
      assert p1(page[i]).Ok? && p2(page[i]).Ok? && p3(page[i]).Ok?;
    }
    TryFilterThrice(page, pa, pb, pc, all);
    TryFilterThrice(page, p1, p2, p3, all);
    PassesCompose(page, filters);
  }

  /**
   * Given that the store answers `CollabsQuery` and no pass throws: at most
   * 50 collabs, each a stored collab with its id; newest first whenever every
   * stored creation time is a timestamp; and when the store returned fewer
   * than 50, every stored collab that has a creation time and passes the
   * filters is shown.
   */
  lemma FetchCollabsShows(filters: Filters, collabs: map<string, Doc>, page: seq<Entry>)
    requires Answers(CollabsQuery, collabs, page)
    requires TryFilter(Materialize(page), Matches(filters)).Ok?
    ensures var shown := TryFilter(Materialize(page), Matches(filters)).value;
      && |shown| <= 50
      && (forall d :: d in shown ==> exists i :: 0 <= i < |page| && page[i].id in collabs && d == WithId(page[i].id, collabs[page[i].id]))
      && ((forall id :: id in collabs && "createdAt" in collabs[id] ==> collabs[id]["createdAt"].Time?) ==>
            forall i :: 0 <= i < |shown| - 1 ==> InOrder(Order("createdAt", Desc), shown[i], shown[i + 1]))
      && (|page| < 50 ==> forall id ::
            id in collabs && "createdAt" in collabs[id] && Matches(filters)(WithId(id, collabs[id])) == Ok(true)
            ==> WithId(id, collabs[id]) in shown)
  {
    var all := Materialize(page);
    var shown := TryFilter(all, Matches(filters)).value;
    forall d | d in shown
      ensures exists i :: 0 <= i < |page| && page[i].id in collabs && d == WithId(page[i].id, collabs[page[i].id])
    {
      var i :| 0 <= i < |all| && all[i] == d;
    }
    if forall id :: id in collabs && "createdAt" in collabs[id] ==> collabs[id]["createdAt"].Time? {
      CollabsNewestFirst(filters, collabs, page);
    }
    if |page| < 50 {
      CollabsComplete(filters, collabs, page);
    }
  }

  lemma CollabsNewestFirst(filters: Filters, collabs: map<string, Doc>, page: seq<Entry>)
    requires Answers(CollabsQuery, collabs, page)
    requires TryFilter(Materialize(page), Matches(filters)).Ok?
    requires forall id :: id in collabs && "createdAt" in collabs[id] ==> collabs[id]["createdAt"].Time?
    ensures var shown := TryFilter(Materialize(page), Matches(filters)).value;
      forall i :: 0 <= i < |shown| - 1 ==> InOrder(Order("createdAt", Desc), shown[i], shown[i + 1])
  {
    var all: seq<Doc> := Materialize(page);
    var o := Order("createdAt", Desc);
    MaterializeKeepsOrder(o, page);
    forall k | 0 <= k < |all| ensures "createdAt" in all[k] && all[k]["createdAt"].Time? {
      assert Selected(CollabsQuery, page[k].data);
    }
    forall i, j | 0 <= i < j < |all| ensures InOrder(o, all[i], all[j]) {
      TimesInOrder(o, all, i, j);
    }
    TryFilterKeepsPairs(all, Matches(filters), (x, y) => InOrder(o, x, y));
  }

  lemma CollabsComplete(filters: Filters, collabs: map<string, Doc>, page: seq<Entry>)
    requires Answers(CollabsQuery, collabs, page) && |page| < 50
    requires TryFilter(Materialize(page), Matches(filters)).Ok?
    ensures forall id :: id in collabs && "createdAt" in collabs[id] && Matches(filters)(WithId(id, collabs[id])) == Ok(true) ==>
      WithId(id, collabs[id]) in TryFilter(Materialize(page), Matches(filters)).value
  {
    var all := Materialize(page);
    forall id | id in collabs && "createdAt" in collabs[id] && Matches(filters)(WithId(id, collabs[id])) == Ok(true)
      ensures WithId(id, collabs[id]) in TryFilter(all, Matches(filters)).value
    {
      assert Selected(CollabsQuery, collabs[id]);
      var i :| 0 <= i < |page| && page[i].id == id;
      assert all[i] == WithId(id, collabs[id]);
    }
  }

  /** `updateCollabStatus(collabId, status)`: only the `status` field of that collab changes. */
  method UpdateCollabStatus(store: Collection, collabId: string, status: string, fails: bool) returns (r: Result<bool>)
    modifies store
    ensures r.Err? ==> store.docs == old(store.docs)
    ensures r.Ok? <==> !fails && collabId in old(store.docs)
    ensures r.Ok? ==> r.value && store.docs == old(store.docs)[collabId := old(store.docs)[collabId]["status" := Str(status)]]
  {
    var updated := store.SetField(collabId, "status", Str(status), fails);
    if updated.Err? {
      return Err(updated.error);
    }
    return Ok(true);
  }

  /**
   * `showInterest(collabId, userId)`: the update names `increment`, which the
   * module never imports, so building the update throws a ReferenceError
   * before anything is sent; the error is re-thrown and the store is untouched.
   */
  method ShowInterest(store: Collection, collabId: string, userId: string) returns (r: Result<bool>)
    ensures r == Err(ReferenceError)
  {
    return Err(ReferenceError);
  }
}
