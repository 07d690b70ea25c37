/**
 * The vibe data-access layer: posting an anonymous vibe, fetching the wall
 * under one of three filters, and the heart counter.
 */
module VibeService {
  import opened Js
  import opened Store

  /** `{ ...vibeData, heartsCount: 0, heartedBy: [], createdAt: Timestamp.now() }` */
  function StampVibe(data: Doc, now: int): (r: Doc)
    ensures r.Keys == data.Keys + {"heartsCount", "heartedBy", "createdAt"}
    ensures r["heartsCount"] == Num(0) && r["heartedBy"] == Arr([]) && r["createdAt"] == Time(now)
    ensures forall k :: k in data && k !in {"heartsCount", "heartedBy", "createdAt"} ==> r[k] == data[k]
  {
    data + map["heartsCount" := Num(0), "heartedBy" := Arr([]), "createdAt" := Time(now)]
  }

  /** `createVibe(vibeData)`: stores the stamped vibe and returns it with its id; a store failure is passed on. */
  method CreateVibe(store: Collection, data: Doc, newId: string, now: int, fails: bool) returns (r: Result<Doc>)
    requires newId !in store.docs
    modifies store
    ensures fails ==> r == Err(StoreFailure) && store.docs == old(store.docs)
    ensures !fails ==> r == Ok(WithId(newId, StampVibe(data, now)))
    ensures !fails ==> store.docs == old(store.docs)[newId := StampVibe(data, now)]
  {
    var vibe := StampVibe(data, now);
    var added := store.Add(newId, vibe, fails);
    if added.Err? {
      return Err(added.error);
    }
    return Ok(WithId(newId, vibe));
  }

  /**
   * The query `fetchVibes(filterType)` issues; `midnight` is the start of the
   * current local day in milliseconds, which only the "today" filter reads.
   */
  function VibesQuery(filterType: string, midnight: int): Query {
    if filterType == "today" then
      Query("vibes", [FieldAtLeast("createdAt", Time(midnight))], Some(Order("createdAt", Desc)), Some(100))
    else if filterType == "loved" then
      Query("vibes", [], Some(Order("heartsCount", Desc)), Some(100))
    else
      Query("vibes", [], Some(Order("createdAt", Desc)), Some(100))
  }

  /** `fetchVibes(filterType)`: the answer to `VibesQuery`, each vibe with its id. */
  method FetchVibes(filterType: string, midnight: int, run: Query -> Result<seq<Entry>>) returns (r: Result<seq<Doc>>)
    ensures run(VibesQuery(filterType, midnight)).Err? ==> r == Err(run(VibesQuery(filterType, midnight)).error)
    ensures run(VibesQuery(filterType, midnight)).Ok? ==> r == Ok(Materialize(run(VibesQuery(filterType, midnight)).value))
  {
    var snapshot := run(VibesQuery(filterType, midnight));
    if snapshot.Err? {
      return Err(snapshot.error);
    }
    return Ok(Materialize(snapshot.value));
  }

  /** Each filter shows at most 100 vibes, each a stored vibe with its id. */
  lemma FetchVibesStored(filterType: string, midnight: int, vibes: map<string, Doc>, page: seq<Entry>)
    requires Answers(VibesQuery(filterType, midnight), vibes, page)
    ensures var shown := Materialize(page);
      && |shown| <= 100
      && forall i :: 0 <= i < |shown| ==> page[i].id in vibes && shown[i] == WithId(page[i].id, vibes[page[i].id])
  {
  }

  /** "today" shows only vibes created at or after midnight. */
  lemma FetchVibesToday(midnight: int, vibes: map<string, Doc>, page: seq<Entry>)
    requires Answers(VibesQuery("today", midnight), vibes, page)
    ensures var shown := Materialize(page);
      forall i :: 0 <= i < |shown| ==>
        "createdAt" in shown[i] && shown[i]["createdAt"].Time? && shown[i]["createdAt"].millis >= midnight
  {
    var q := VibesQuery("today", midnight);
    var shown: seq<Doc> := Materialize(page);
    forall i | 0 <= i < |shown|
      ensures "createdAt" in shown[i] && shown[i]["createdAt"].Time? && shown[i]["createdAt"].millis >= midnight
    {
      assert Selected(q, page[i].data);
      assert ClauseHolds(q.clauses[0], page[i].data);
    }
  }

  /** "loved" lists vibes by descending heart count; every other filter newest first. */
  lemma FetchVibesOrdered(filterType: string, midnight: int, vibes: map<string, Doc>, page: seq<Entry>)
    requires Answers(VibesQuery(filterType, midnight), vibes, page)
    ensures var shown := Materialize(page);
      forall i :: 0 <= i < |shown| - 1 ==>
        InOrder(Order(if filterType == "loved" then "heartsCount" else "createdAt", Desc), shown[i], shown[i + 1])
  {
    MaterializeKeepsOrder(VibesQuery(filterType, midnight).order.value, page);
  }

  /**
   * Under "all" (any filter other than "today" and "loved"), when fewer than
   * 100 vibes come back, every stored vibe that has a creation time is shown.
   */
  lemma FetchVibesComplete(filterType: string, midnight: int, vibes: map<string, Doc>, page: seq<Entry>)
    requires filterType != "today" && filterType != "loved"
    requires Answers(VibesQuery(filterType, midnight), vibes, page) && |page| < 100
    ensures forall id :: id in vibes && "createdAt" in vibes[id] ==> exists i :: 0 <= i < |page| && page[i].id == id
  {
    var q := VibesQuery(filterType, midnight);
    forall id | id in vibes && "createdAt" in vibes[id]
      ensures exists i :: 0 <= i < |page| && page[i].id == id
    {
      assert Selected(q, vibes[id]);
    }
  }

  /**
   * `toggleHeart(vibeId, userId)`: whoever calls it, the vibe's `heartsCount`
   * goes up by one; the user is not recorded and nothing is ever taken back.
   */
  method ToggleHeart(store: Collection, vibeId: string, userId: string, fails: bool) returns (r: Result<bool>)
    modifies store
    ensures r.Err? ==> store.docs == old(store.docs)
    ensures r.Ok? <==> !fails && vibeId in old(store.docs)
    ensures r.Ok? ==> r.value && store.docs == old(store.docs)[vibeId := Incremented(old(store.docs)[vibeId], "heartsCount")]
  {
    var updated := store.Increment(vibeId, "heartsCount", fails);
    if updated.Err? {
      return Err(updated.error);
    }
    return Ok(true);
  }

  /** A document after `n` successful heart calls. */
  function HeartedTimes(d: Doc, n: nat): Doc {
    if n == 0 then d else Incremented(HeartedTimes(d, n - 1), "heartsCount")
  }

  /**
   * The heart call is not a toggle: after `n` calls the count has grown by
   * exactly `n` from where it started (a missing count starting at 0), and
   * `heartedBy` and every other field are as they were.
   */
  lemma {:induction false} HeartsAccumulate(d: Doc, n: nat)
    ensures "heartsCount" in HeartedTimes(d, n)
      || (n == 0 && "heartsCount" !in d)
    ensures NumOrZero(Get(HeartedTimes(d, n), "heartsCount")) == NumOrZero(Get(d, "heartsCount")) + n
    ensures forall k :: k in d && k != "heartsCount" ==> k in HeartedTimes(d, n) && HeartedTimes(d, n)[k] == d[k]
  {
    if n > 0 {
      HeartsAccumulate(d, n - 1);
    }
  }

  /** A new vibe hearted `n` times shows `n` hearts and still no one in `heartedBy`. */
  lemma NewVibeHearts(data: Doc, now: int, n: nat)
    ensures var d := HeartedTimes(StampVibe(data, now), n);
      "heartsCount" in d && d["heartsCount"] == Num(n) && "heartedBy" in d && d["heartedBy"] == Arr([])
  {
    HeartsAccumulate(StampVibe(data, now), n);
  }
}
