/**
 * A section's page: its title from a fixed table, its posts (re-fetched
 * when the tag changes), the client-side tag filter, and the reaction
 * buttons, which update the shown post once the store has counted the
 * reaction.
 */
module SectionDetail {
  import opened Js
  import opened Store
  import SectionService

  /** The name and description shown in the header. */
  datatype SectionMeta = SectionMeta(name: string, description: string)

  const Sections: map<string, SectionMeta> := map[
    "hackathons" := SectionMeta("Hackathons & Coding", "Competitive coding, hackathons, and coding challenges"),
    "startups" := SectionMeta("Startups & Entrepreneurship", "Build the next big thing, discuss ideas, find co-founders"),
    "design" := SectionMeta("Design & Creativity", "UI/UX, graphic design, content creation, and creative projects"),
    "placement" := SectionMeta("Placements & Internships", "Job opportunities, interview prep, resume tips"),
    "sports" := SectionMeta("Sports & Fitness", "Team formation, tournaments, fitness goals"),
    "events" := SectionMeta("Events & Workshops", "Campus events, workshops, seminars, and meetups")]

  const Unknown := SectionMeta("Unknown Section", "Section not found")

  /** `SECTIONS[sectionId] || { name: 'Unknown Section', ... }` */
  function SectionOf(sectionId: string): (m: SectionMeta)
    ensures sectionId in Sections ==> m == Sections[sectionId] && m != Unknown
    ensures sectionId !in Sections ==> m == Unknown
  {
    if sectionId in Sections then Sections[sectionId] else Unknown
  }

  /**
   * `post.reactions[emoji] || 0) + 1` written back into a copy of the post:
   * `{ ...post, reactions: { ...post.reactions, [emoji]: ... } }`. Reading an
   * emoji of missing or null reactions throws a TypeError; any other
   * non-object value spreads to nothing.
   */
  function BumpReaction(post: Doc, emoji: string): (r: Result<Doc>)
    ensures r.Err? <==> Get(post, "reactions") in {None, Some(Null)}
    ensures r.Err? ==> r.error == TypeError
    ensures r.Ok? ==>
      && r.value.Keys == post.Keys
      && (forall k :: k in post && k != "reactions" ==> r.value[k] == post[k])
      && r.value["reactions"].Obj?
      && emoji in r.value["reactions"].fields
      && r.value["reactions"].fields[emoji] == Num(NumOrZero(
           if post["reactions"].Obj? then Get(post["reactions"].fields, emoji) else None) + 1)
      && (post["reactions"].Obj? ==> forall e :: e in post["reactions"].fields && e != emoji ==>
            e in r.value["reactions"].fields && r.value["reactions"].fields[e] == post["reactions"].fields[e])
  {
    match Get(post, "reactions")
    case None => Err(TypeError)
    case Some(Null) => Err(TypeError)
    case Some(Obj(fields)) => Ok(post["reactions" := Obj(fields[emoji := Num(NumOrZero(Get(fields, emoji)) + 1)])])
    case Some(_) => Ok(post["reactions" := Obj(map[emoji := Num(1)])])
  }

  /** `post.id === postId` */
  predicate IsPost(post: Doc, postId: string) {
    Get(post, "id") == Some(Str(postId))
  }

  /** `posts.map(post => post.id === postId ? bumped(post) : post)`; the first throw ends the map. */
  function BumpPosts(posts: seq<Doc>, postId: string, emoji: string): Result<seq<Doc>> {
    if posts == [] then Ok([])
    else
      var head := if IsPost(posts[0], postId) then BumpReaction(posts[0], emoji) else Ok(posts[0]);
      match head
      case Err(e) => Err(e)
      case Ok(h) =>
        match BumpPosts(posts[1..], postId, emoji)
        case Err(e) => Err(e)
        case Ok(t) => Ok([h] + t)
  }

  /**
   * The rewrite throws exactly when a post with that id has no reactions
   * map; otherwise it keeps the list's length and order, bumps every post
   * with that id and leaves every other post as it was.
   */
  lemma {:induction false} BumpPostsEffect(posts: seq<Doc>, postId: string, emoji: string)
    ensures var r := BumpPosts(posts, postId, emoji);
      && (r.Err? <==> exists i :: 0 <= i < |posts| && IsPost(posts[i], postId) && BumpReaction(posts[i], emoji).Err?)
      && (r.Err? ==> r.error == TypeError)
      && (r.Ok? ==> |r.value| == |posts|)
      && (r.Ok? ==> forall i :: 0 <= i < |posts| ==>
            r.value[i] == if IsPost(posts[i], postId) then BumpReaction(posts[i], emoji).value else posts[i])
  {
    if posts != [] {
      BumpPostsEffect(posts[1..], postId, emoji);
      assert forall i :: 1 <= i < |posts| ==> posts[i] == posts[1..][i - 1];
    }
  }

  /**
   * The shown post after the bump equals the stored post after
   * `addReaction`, once the id is added: the page and the store agree.
   */
  lemma BumpMatchesStore(d: Doc, id: string, emoji: string)
    requires "id" !in d && "reactions" in d && d["reactions"].Obj?
    ensures BumpReaction(WithId(id, d), emoji) == Ok(WithId(id, IncrementedNested(d, "reactions", emoji)))
  {
    var shown := WithId(id, d);
    var fields := d["reactions"].fields;
    assert shown["reactions"] == Obj(fields);
    var inner := fields[emoji := Num(NumOrZero(Get(fields, emoji)) + 1)];
    var bumped := shown["reactions" := Obj(inner)];
    assert BumpReaction(shown, emoji) == Ok(bumped);
    var stored := WithId(id, IncrementedNested(d, "reactions", emoji));
    assert IncrementedNested(d, "reactions", emoji) == d["reactions" := Obj(inner)];
    assert bumped.Keys == stored.Keys;
    forall k | k in bumped ensures bumped[k] == stored[k] {
    }
    assert bumped == stored;
  }

  /** `post => post.tags?.includes(selectedTag)` */
  function HasTag(tag: string): Doc -> Result<bool> {
    d => Includes(Get(d, "tags"), Str(tag))
  }

  /** `filteredPosts`: every post under "all", otherwise the posts whose tags include the tag. */
  function FilteredPosts(posts: seq<Doc>, selectedTag: string): Result<seq<Doc>> {
    if selectedTag == "all" then Ok(posts) else TryFilter(posts, HasTag(selectedTag))
  }

  /**
   * Under "all" the posts are shown as they are. Under a tag the shown posts
   * keep their order, each has a `tags` value containing the tag, and no
   * post with such tags is left out; only a post whose `tags` is neither an
   * array, a string nor null makes the filter throw.
   */
  lemma FilteredPostsKeeps(posts: seq<Doc>, selectedTag: string)
    ensures selectedTag == "all" ==> FilteredPosts(posts, selectedTag) == Ok(posts)
    ensures selectedTag != "all" ==>
      var r := FilteredPosts(posts, selectedTag);
      && (r.Err? <==> exists i :: 0 <= i < |posts| && HasTag(selectedTag)(posts[i]).Err?)
      && (r.Ok? ==> IsSublist(r.value, posts))
      && (r.Ok? ==> forall d :: d in r.value ==> "tags" in d && Includes(Get(d, "tags"), Str(selectedTag)) == Ok(true))
      && (r.Ok? ==> forall d :: d in posts && Includes(Get(d, "tags"), Str(selectedTag)) == Ok(true) ==> d in r.value)
  {
    if selectedTag != "all" && FilteredPosts(posts, selectedTag).Ok? {
      TryFilterIsSublist(posts, HasTag(selectedTag));
    }
  }

  /** What pressing a reaction button led to. */
  datatype ReactionOutcome = NeedLogin | Reacted | Failed(error: Error)

  class Page {
    const sectionId: string
    var selectedTag: string
    var posts: seq<Doc>
    var loading: bool

    constructor (sectionId: string)
      ensures this.sectionId == sectionId && selectedTag == "all" && posts == [] && loading
    {
      this.sectionId := sectionId;
      selectedTag, posts, loading := "all", [], true;
    }

    /** A tag button; the page then loads the posts again. */
    method SelectTag(tag: string)
      modifies this
      ensures selectedTag == tag && posts == old(posts) && loading == old(loading)
    {
      selectedTag := tag;
    }

    /**
     * `loadPosts()`: the posts of the section under the selected tag, or no
     * posts when the fetch fails; loading ends either way.
     */
    method LoadPosts(run: Query -> Result<seq<Entry>>)
      modifies this
      ensures !loading && selectedTag == old(selectedTag)
      ensures var answer := run(SectionService.PostsQuery(sectionId, selectedTag));
        posts == (if answer.Ok? then Materialize(answer.value) else [])
    {
      loading := true;
      var fetched := SectionService.FetchSectionPosts(sectionId, selectedTag, run);
      if fetched.Ok? {
        posts := fetched.value;
      } else {
        posts := [];
      }
      loading := false;
    }

    /**
     * `handleReaction(postId, emoji)`: without a signed-in user nothing is
     * sent and nothing changes. Otherwise the store counts the reaction; only
     * after it has, the shown post is bumped. A failed store call leaves the
     * page as it was; so does a shown post without reactions, whose bump
     * throws after the store has already counted.
     */
    method HandleReaction(store: Collection, user: Option<User>, postId: string, emoji: string, fails: bool)
      returns (outcome: ReactionOutcome)
      modifies this, store
      ensures selectedTag == old(selectedTag) && loading == old(loading)
      ensures outcome == NeedLogin <==> user.None?
      ensures user.None? || fails || postId !in old(store.docs) ==> store.docs == old(store.docs) && posts == old(posts)
      ensures user.Some? && !fails && postId in old(store.docs) ==>
        store.docs == old(store.docs)[postId := IncrementedNested(old(store.docs)[postId], "reactions", emoji)]
      ensures var bumped := BumpPosts(old(posts), postId, emoji);
        posts == (if user.Some? && !fails && postId in old(store.docs) && bumped.Ok? then bumped.value else old(posts))
      ensures outcome == Reacted <==> user.Some? && !fails && postId in old(store.docs) && BumpPosts(old(posts), postId, emoji).Ok?
    {
      if user.None? {
        return NeedLogin;
      }
      var added := SectionService.AddReaction(store, postId, emoji, fails);
      if added.Err? {
        return Failed(added.error);
      }
      var bumped := BumpPosts(posts, postId, emoji);
      if bumped.Err? {
        return Failed(bumped.error);
      }
      posts := bumped.value;
      return Reacted;
    }
  }
}
