/**
 * The section-post data-access layer: posting into a section, fetching a
 * section's posts (optionally by tag), reacting to a post, and counting a
 * section's posts.
 */
module SectionService {
  import opened Js
  import opened Store

  /** The three reaction emojis: thumbs up, fire and light bulb. */
  const ThumbsUp := "\U{1F44D}"
  const Fire := "\U{1F525}"
  const Bulb := "\U{1F4A1}"

  /** The reactions a new post starts with: each emoji at zero. */
  const InitialReactions: map<string, Value> := map[ThumbsUp := Num(0), Fire := Num(0), Bulb := Num(0)]

  /** `{ ...postData, reactions: {...}, createdAt: Timestamp.now() }` */
  function StampPost(data: Doc, now: int): (r: Doc)
    ensures r.Keys == data.Keys + {"reactions", "createdAt"}
    ensures r["reactions"] == Obj(InitialReactions) && r["createdAt"] == Time(now)
    ensures forall k :: k in data && k != "reactions" && k != "createdAt" ==> r[k] == data[k]
  {
    data + map["reactions" := Obj(InitialReactions), "createdAt" := Time(now)]
  }

  /** `createSectionPost(postData)`: stores the stamped post and returns it with its id. */
  method CreateSectionPost(store: Collection, data: Doc, newId: string, now: int, fails: bool) returns (r: Result<Doc>)
    requires newId !in store.docs
    modifies store
    ensures fails ==> r == Err(StoreFailure) && store.docs == old(store.docs)
    ensures !fails ==> r == Ok(WithId(newId, StampPost(data, now)))
    ensures !fails ==> store.docs == old(store.docs)[newId := StampPost(data, now)]
  {
    var post := StampPost(data, now);
    var added := store.Add(newId, post, fails);
    if added.Err? {
      return Err(added.error);
    }
    return Ok(WithId(newId, post));
  }

  /** The query `fetchSectionPosts(sectionId, tagFilter)` issues. */
  function PostsQuery(sectionId: string, tagFilter: string): Query {
    if tagFilter != "all" then
      Query("sectionPosts", [FieldEq("sectionId", Str(sectionId)), ArrayContains("tags", Str(tagFilter))],
            Some(Order("createdAt", Desc)), Some(50))
    else
      Query("sectionPosts", [FieldEq("sectionId", Str(sectionId))], Some(Order("createdAt", Desc)), Some(50))
  }

  /** `fetchSectionPosts(sectionId, tagFilter)`: the answer to `PostsQuery`, each post with its id. */
  method FetchSectionPosts(sectionId: string, tagFilter: string, run: Query -> Result<seq<Entry>>) returns (r: Result<seq<Doc>>)
    ensures run(PostsQuery(sectionId, tagFilter)).Err? ==> r == Err(run(PostsQuery(sectionId, tagFilter)).error)
    ensures run(PostsQuery(sectionId, tagFilter)).Ok? ==> r == Ok(Materialize(run(PostsQuery(sectionId, tagFilter)).value))
  {
    var snapshot := run(PostsQuery(sectionId, tagFilter));
    if snapshot.Err? {
      return Err(snapshot.error);
    }
    return Ok(Materialize(snapshot.value));
  }

  /**
   * Given that the store answers the query: at most 50 posts, all of this
   * section, newest first; under a tag other than "all" each carries the tag
   * in its `tags` array; and when fewer than 50 come back, no post of the
   * section (with that tag, when one is chosen) that has a creation time is
   * missing.
   */
  lemma FetchSectionPostsShows(sectionId: string, tagFilter: string, posts: map<string, Doc>, page: seq<Entry>)
    requires Answers(PostsQuery(sectionId, tagFilter), posts, page)
    ensures var shown := Materialize(page);
      && |shown| <= 50
      && (forall i :: 0 <= i < |shown| ==> Get(shown[i], "sectionId") == Some(Str(sectionId)))
      && (tagFilter != "all" ==> forall i :: 0 <= i < |shown| ==>
            "tags" in shown[i] && shown[i]["tags"].Arr? && Str(tagFilter) in shown[i]["tags"].items)
      && (forall i :: 0 <= i < |shown| - 1 ==> InOrder(Order("createdAt", Desc), shown[i], shown[i + 1]))
      && (|shown| < 50 ==> forall id ::
            id in posts && Get(posts[id], "sectionId") == Some(Str(sectionId)) && "createdAt" in posts[id]
            && (tagFilter != "all" ==> "tags" in posts[id] && posts[id]["tags"].Arr? && Str(tagFilter) in posts[id]["tags"].items)
            ==> exists i :: 0 <= i < |page| && page[i].id == id)
  {
    var q := PostsQuery(sectionId, tagFilter);
    var shown := Materialize(page);
    forall i | 0 <= i < |shown|
      ensures Get(shown[i], "sectionId") == Some(Str(sectionId))
      ensures tagFilter != "all" ==> "tags" in shown[i] && shown[i]["tags"].Arr? && Str(tagFilter) in shown[i]["tags"].items
    {
      assert Selected(q, page[i].data);
      assert ClauseHolds(q.clauses[0], page[i].data);
      if tagFilter != "all" {
        assert ClauseHolds(q.clauses[1], page[i].data);
      }
    }
    MaterializeKeepsOrder(q.order.value, page);
    if |shown| < 50 {
      forall id | id in posts && Get(posts[id], "sectionId") == Some(Str(sectionId)) && "createdAt" in posts[id]
            && (tagFilter != "all" ==> "tags" in posts[id] && posts[id]["tags"].Arr? && Str(tagFilter) in posts[id]["tags"].items)
        ensures exists i :: 0 <= i < |page| && page[i].id == id
      {
        forall c | c in q.clauses ensures ClauseHolds(c, posts[id]) {}
        assert Selected(q, posts[id]);
      }
    }
  }

  /**
   * `addReaction(postId, emoji)`: the counter `reactions.<emoji>` of the post
   * goes up by one (from 0 when missing); other reactions and fields stay.
   */
  method AddReaction(store: Collection, postId: string, emoji: string, fails: bool) returns (r: Result<bool>)
    modifies store
    ensures r.Err? ==> store.docs == old(store.docs)
    ensures r.Ok? <==> !fails && postId in old(store.docs)
    ensures r.Ok? ==> r.value && store.docs == old(store.docs)[postId := IncrementedNested(old(store.docs)[postId], "reactions", emoji)]
  {
    var updated := store.IncrementNested(postId, "reactions", emoji, fails);
    if updated.Err? {
      return Err(updated.error);
    }
    return Ok(true);
  }

  /**
   * A new post that receives one reaction shows 1 for that emoji and 0 for
   * the two others, and keeps the rest of its fields.
   */
  lemma ReactOnNewPost(data: Doc, now: int, emoji: string)
    requires emoji in {ThumbsUp, Fire, Bulb}
    ensures var after := IncrementedNested(StampPost(data, now), "reactions", emoji);
      && after["reactions"].fields.Keys == {ThumbsUp, Fire, Bulb}
      && after["reactions"].fields[emoji] == Num(1)
      && (forall e :: e in {ThumbsUp, Fire, Bulb} && e != emoji ==> after["reactions"].fields[e] == Num(0))
      && (forall k :: k in data && k != "reactions" && k != "createdAt" ==> after[k] == data[k])
  {
  }

  /** The query `getSectionPostCount(sectionId)` issues: no order and no limit. */
  function CountQuery(sectionId: string): Query {
    Query("sectionPosts", [FieldEq("sectionId", Str(sectionId))], None, None)
  }

  /** `getSectionPostCount(sectionId)`: the size of the answer, or 0 when the store fails. */
  method GetSectionPostCount(sectionId: string, run: Query -> Result<seq<Entry>>) returns (count: nat)
    ensures run(CountQuery(sectionId)).Err? ==> count == 0
    ensures run(CountQuery(sectionId)).Ok? ==> count == |run(CountQuery(sectionId)).value|
  {
    var snapshot := run(CountQuery(sectionId));
    if snapshot.Err? {
      return 0;
    }
    return |snapshot.value|;
  }

  /** The post ids of one section. */
  function SectionPostIds(posts: map<string, Doc>, sectionId: string): set<string> {
    set id | id in posts && Get(posts[id], "sectionId") == Some(Str(sectionId))
  }

  /** The count is exactly the number of stored posts of the section. */
  lemma PostCountIsExact(sectionId: string, posts: map<string, Doc>, page: seq<Entry>)
    requires Answers(CountQuery(sectionId), posts, page)
    ensures |page| == |SectionPostIds(posts, sectionId)|
  {
    var q := CountQuery(sectionId);
    AnswerSize(q, posts, page);
    assert SelectedIds(q, posts) == SectionPostIds(posts, sectionId) by {
      forall id | id in posts
        ensures Selected(q, posts[id]) <==> Get(posts[id], "sectionId") == Some(Str(sectionId))
      {
        var c := FieldEq("sectionId", Str(sectionId));
        assert q.clauses == [c];
        assert (forall c' :: c' in q.clauses ==> ClauseHolds(c', posts[id])) <==> ClauseHolds(c, posts[id]);
      }
    }
  }
}
