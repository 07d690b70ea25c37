/**
 * The "New Post" form of a section: a title, a body and optional tags,
 * posted into the section under the signed-in user's name.
 */
module CreatePostModal {
  import opened Js
  import opened Store
  import opened Strings
  import opened Lists
  import SectionService

  const TagIds: seq<string> := ["looking-for-team", "resources", "announcement", "hiring", "question"]
  const TitleMax := 100
  const BodyMax := 500

  /** The author's name: the display name, else the e-mail's local part, else "Anonymous". */
  function AuthorName(user: User): string {
    NameOr(user, "Anonymous")
  }

  /** The post document the form submits for `user` (before the store stamps it). */
  function PostDoc(sectionId: string, title: string, body: string, tags: seq<string>, user: User): Doc {
    map["sectionId" := Str(sectionId), "title" := Str(title), "body" := Str(body), "tags" := Arr(Strs(tags)),
        "author" := Obj(map["name" := Str(AuthorName(user)), "uid" := Str(user.uid)]),
        "createdBy" := Str(user.uid)]
  }

  /** The stored post: the submitted document with zeroed reactions and its creation time. */
  function StoredPost(sectionId: string, title: string, body: string, tags: seq<string>, user: User, now: int): Doc {
    SectionService.StampPost(PostDoc(sectionId, title, body, tags, user), now)
  }

  /**
   * A stored post belongs to the section, is created by the submitter, names
   * the submitter as author (see `AuthorName`) and starts with every
   * reaction at zero.
   */
  lemma StoredPostOwner(sectionId: string, title: string, body: string, tags: seq<string>, user: User, now: int)
    ensures var d := StoredPost(sectionId, title, body, tags, user, now);
      && Get(d, "sectionId") == Some(Str(sectionId))
      && Get(d, "createdBy") == Some(Str(user.uid))
      && Get(d, "author") == Some(Obj(map["name" := Str(AuthorName(user)), "uid" := Str(user.uid)]))
      && Get(d, "reactions") == Some(Obj(SectionService.InitialReactions))
      && Get(d, "createdAt") == Some(Time(now))
  {
    var p := PostDoc(sectionId, title, body, tags, user);
    assert p["sectionId"] == Str(sectionId) && p["createdBy"] == Str(user.uid);
  }

  /** A stored post carries the form's title, body and tags. */
  lemma StoredPostContent(sectionId: string, title: string, body: string, tags: seq<string>, user: User, now: int)
    ensures var d := StoredPost(sectionId, title, body, tags, user, now);
      && Get(d, "title") == Some(Str(title)) && Get(d, "body") == Some(Str(body))
      && Get(d, "tags") == Some(Arr(Strs(tags)))
  {
    var p := PostDoc(sectionId, title, body, tags, user);
    assert p["title"] == Str(title) && p["body"] == Str(body) && p["tags"] == Arr(Strs(tags));
  }

  /** `disabled={!title.trim() || !body.trim() || loading}`, negated. */
  predicate CanSubmit(title: string, body: string, loading: bool) {
    Trim(title) != "" && Trim(body) != "" && !loading
  }

  /** The button is enabled exactly when nothing is pending and both the title and the body have text. */
  lemma CanSubmitIffText(title: string, body: string, loading: bool)
    ensures CanSubmit(title, body, loading) <==> !loading && HasText(title) && HasText(body)
  {
    TrimNonEmpty(title);
    TrimNonEmpty(body);
  }

  /** What pressing "Create Post" led to. */
  datatype SubmitOutcome = NeedLogin | Created(post: Doc) | Failed(error: Error)

  class Form {
    var title: string
    var body: string
    var tags: seq<string>

    /** The inputs' length limits hold; the tags are offered ones, once each. */
    predicate Valid()
      reads this
    {
      && |title| <= TitleMax && |body| <= BodyMax
      && NoDuplicates(tags) && (forall t :: t in tags ==> t in TagIds)
    }

    /** `{ title: '', body: '', tags: [] }` */
    predicate IsBlank()
      reads this
    {
      title == "" && body == "" && tags == []
    }

    constructor ()
      ensures Valid() && IsBlank()
    {
      title, body, tags := "", "", [];
    }

    /** Typing into the title; the input refuses more than 100 characters. */
    method EditTitle(t: string)
      requires Valid()
      modifies this
      ensures Valid()
      ensures title == (if |t| <= TitleMax then t else old(title))
      ensures body == old(body) && tags == old(tags)
    {
      if |t| <= TitleMax {
        title := t;
      }
    }

    /** Typing into the body; the textarea refuses more than 500 characters. */
    method EditBody(t: string)
      requires Valid()
      modifies this
      ensures Valid()
      ensures body == (if |t| <= BodyMax then t else old(body))
      ensures title == old(title) && tags == old(tags)
    {
      if |t| <= BodyMax {
        body := t;
      }
    }

    /** `toggleTag(tagId)` from a tag button: flips that tag and no other. */
    method ToggleTag(t: string)
      requires Valid()
      modifies this
      ensures Valid()
      ensures tags == (if t in TagIds then Toggle(old(tags), t) else old(tags))
      ensures t in TagIds ==> (t in tags <==> t !in old(tags))
      ensures forall u :: u != t ==> (u in tags <==> u in old(tags))
      ensures title == old(title) && body == old(body)
    {
      if t in TagIds {
        ToggleKeepsNoDuplicates(tags, t);
        ToggleFlipsOne(tags, t);
        RemoveKeepsOthers(tags, t);
        tags := Toggle(tags, t);
      }
    }

    /** Back to the blank form after a successful post. */
    method Reset()
      modifies this
      ensures Valid() && IsBlank()
    {
      title, body, tags := "", "", [];
    }

    /** `createSectionPost({...})` with the form's contents, by `user`. */
    method Send(posts: Collection, sectionId: string, user: User, newId: string, now: int, fails: bool)
      returns (r: Result<Doc>)
      requires newId !in posts.docs
      modifies posts
      ensures fails ==> r == Err(StoreFailure) && posts.docs == old(posts.docs)
      ensures !fails ==>
        var d := StoredPost(sectionId, title, body, tags, user, now);
        r == Ok(WithId(newId, d)) && posts.docs == old(posts.docs)[newId := d]
    {
      var data := PostDoc(sectionId, title, body, tags, user);
      r := SectionService.CreateSectionPost(posts, data, newId, now, fails);
    }

    /**
     * `handleSubmit`: without a signed-in user nothing is sent; otherwise the
     * post is created from the form. A success resets the form; a failure
     * leaves it as it was.
     */
    method HandleSubmit(posts: Collection, sectionId: string, user: Option<User>, newId: string, now: int, fails: bool)
      returns (outcome: SubmitOutcome)
      requires Valid() && newId !in posts.docs
      modifies this, posts
      ensures Valid()
      ensures outcome == NeedLogin <==> user.None?
      ensures outcome.Failed? <==> user.Some? && fails
      ensures !outcome.Created? ==> posts.docs == old(posts.docs)
      ensures !outcome.Created? ==> title == old(title) && body == old(body) && tags == old(tags)
      ensures outcome.Created? ==>
        var d := StoredPost(sectionId, old(title), old(body), old(tags), user.value, now);
        && outcome.post == WithId(newId, d)
        && posts.docs == old(posts.docs)[newId := d]
        && IsBlank()
    {
      if user.None? {
        return NeedLogin;
      }
      var created := Send(posts, sectionId, user.value, newId, now, fails);
      if created.Err? {
        return Failed(created.error);
      }
      Reset();
      return Created(created.value);
    }
  }
}
