/**
 * The "Create Collaboration" form: a type, a title, a description, the
 * target branches, a comma-separated list of roles and an optional deadline,
 * submitted as a new open collab owned by the signed-in user.
 */
module CreateCollabModal {
  import opened Js
  import opened Store
  import opened Strings
  import opened Lists
  import CollabService

  const TypeIds: seq<string> := ["project", "hackathon", "startup", "study_group"]
  const AvailableBranches: seq<string> := ["CSE", "IT", "EC", "ME", "CE", "EE"]
  const TitleMax := 100
  const DescriptionMax := 500

  /**
   * `parts.map(r => r.trim()).filter(r => r.length > 0)`, as one pass: each
   * piece is trimmed and kept when something is left.
   */
  function RolesOf(parts: seq<string>): seq<string> {
    if parts == [] then []
    else (if Trim(parts[0]) == "" then [] else [Trim(parts[0])]) + RolesOf(parts[1..])
  }

  /** A kept role is the non-empty trim of one of the pieces. */
  lemma {:induction false} RolesOfMembers(parts: seq<string>, r: string)
    requires r in RolesOf(parts)
    ensures r != "" && exists i :: 0 <= i < |parts| && r == Trim(parts[i])
  {
    if Trim(parts[0]) == "" || r != Trim(parts[0]) {
      RolesOfMembers(parts[1..], r);
      var i :| 0 <= i < |parts[1..]| && r == Trim(parts[1..][i]);
      assert r == Trim(parts[i + 1]);
    } else {
      assert r == Trim(parts[0]);
    }
  }

  /** Every piece whose trim is not empty gives a role. */
  lemma {:induction false} RolesOfKeeps(parts: seq<string>, i: int)
    requires 0 <= i < |parts| && Trim(parts[i]) != ""
    ensures Trim(parts[i]) in RolesOf(parts)
  {
    if i > 0 {
      RolesOfKeeps(parts[1..], i - 1);
    }
  }

  lemma {:induction false} RolesOfAppend(a: seq<string>, b: seq<string>)
    ensures RolesOf(a + b) == RolesOf(a) + RolesOf(b)
  {
    if a == [] {
      assert a + b == b;
    } else {
      var ab := a + b;
      assert ab[0] == a[0] && ab[1..] == a[1..] + b;
      RolesOfAppend(a[1..], b);
      var head := if Trim(a[0]) == "" then [] else [Trim(a[0])];
      calc {
        RolesOf(ab);
        head + RolesOf(ab[1..]);
        head + (RolesOf(a[1..]) + RolesOf(b));
        (head + RolesOf(a[1..])) + RolesOf(b);
      }
    }
  }

  /** `rolesNeeded.split(',').map(r => r.trim()).filter(r => r.length > 0)` */
  function ParseRoles(s: string): seq<string> {
    RolesOf(Split(s, ','))
  }

  /**
   * Every parsed role is non-empty, contains no comma and has no surrounding
   * white space; and every comma-separated piece that is not blank comes out
   * trimmed.
   */
  lemma ParsedRolesClean(s: string)
    ensures forall r :: r in ParseRoles(s) ==>
      r != "" && ',' !in r && !IsSpace(r[0]) && !IsSpace(r[|r| - 1])
    ensures forall p :: p in Split(s, ',') && Trim(p) != "" ==> Trim(p) in ParseRoles(s)
  {
    var parts := Split(s, ',');
    SplitPieces(s, ',');
    forall r | r in ParseRoles(s)
      ensures r != "" && ',' !in r && !IsSpace(r[0]) && !IsSpace(r[|r| - 1])
    {
      RolesOfMembers(parts, r);
      var i :| 0 <= i < |parts| && r == Trim(parts[i]);
      TrimFacts(parts[i]);
      assert ',' !in parts[i];
    }
    forall p | p in parts && Trim(p) != "" ensures Trim(p) in ParseRoles(s) {
      var i :| 0 <= i < |parts| && parts[i] == p;
      RolesOfKeeps(parts, i);
    }
  }

  /** Parsing text joined by a comma parses each side on its own. */
  lemma ParseRolesAppend(a: string, b: string)
    ensures ParseRoles(a + "," + b) == ParseRoles(a) + ParseRoles(b)
  {
    assert a + "," + b == a + [','] + b;
    SplitAppend(a, b, ',');
    RolesOfAppend(Split(a, ','), Split(b, ','));
  }

  /** Clean roles joined with commas parse back to the same list. */
  lemma {:induction false} ParseRolesJoin(roles: seq<string>)
    requires |roles| >= 1
    requires forall i :: 0 <= i < |roles| ==>
      roles[i] != "" && ',' !in roles[i] && !IsSpace(roles[i][0]) && !IsSpace(roles[i][|roles[i]| - 1])
    ensures ParseRoles(Join(roles, ',')) == roles
  {
    ParseSingleRole(roles[0]);
    if |roles| > 1 {
      ParseRolesJoin(roles[1..]);
      assert Join(roles, ',') == roles[0] + "," + Join(roles[1..], ',');
      ParseRolesAppend(roles[0], Join(roles[1..], ','));
      assert [roles[0]] + roles[1..] == roles;
    }
  }

  lemma ParseSingleRole(r: string)
    requires r != "" && ',' !in r && !IsSpace(r[0]) && !IsSpace(r[|r| - 1])
    ensures ParseRoles(r) == [r]
  {
    SplitNoSeparator(r, ',');
    TrimOfTrimmed(r);
    assert RolesOf([r]) == [Trim(r)] + RolesOf([]);
  }

  /** The collab document the form submits (before the store stamps it). */
  function CollabDoc(title: string, description: string, kind: string, branches: seq<string>,
                     rolesNeeded: string, deadline: string, uid: string): Doc
  {
    map["title" := Str(title), "description" := Str(description), "type" := Str(kind),
        "branches" := Arr(Strs(branches)), "rolesNeeded" := Arr(Strs(ParseRoles(rolesNeeded))),
        "deadline" := Str(deadline), "status" := Str("open"), "createdBy" := Str(uid),
        "interestedUsers" := Arr([]), "interestedCount" := Num(0)]
  }

  /** `disabled={!title.trim() || !description.trim() || branches.length === 0 || loading}`, negated. */
  predicate CanSubmit(title: string, description: string, branches: seq<string>, loading: bool) {
    Trim(title) != "" && Trim(description) != "" && |branches| > 0 && !loading
  }

  /**
   * The button is enabled exactly when nothing is pending, the title and the
   * description have text and a branch is chosen.
   */
  lemma CanSubmitIffText(title: string, description: string, branches: seq<string>, loading: bool)
    ensures CanSubmit(title, description, branches, loading) <==>
      !loading && HasText(title) && HasText(description) && branches != []
  {
    TrimNonEmpty(title);
    TrimNonEmpty(description);
  }

  /** What pressing "Create Collaboration" led to. */
  datatype SubmitOutcome = NeedLogin | NeedBranch | Created(collab: Doc) | Failed(error: Error)

  class Form {
    var title: string
    var description: string
    var kind: string
    var branches: seq<string>
    var rolesNeeded: string
    var deadline: string

    /** The type is one of the four offered; the inputs' length limits hold; branches are offered ones, once each. */
    predicate Valid()
      reads this
    {
      && kind in TypeIds
      && |title| <= TitleMax && |description| <= DescriptionMax
      && NoDuplicates(branches) && (forall b :: b in branches ==> b in AvailableBranches)
    }

    /** The initial form, and the one a successful submission resets to. */
    predicate IsBlank()
      reads this
    {
      title == "" && description == "" && kind == "project" && branches == [] && rolesNeeded == "" && deadline == ""
    }

    constructor ()
      ensures Valid() && IsBlank()
    {
      title, description, kind, branches, rolesNeeded, deadline := "", "", "project", [], "", "";
    }

    /** The collab this form stores when `uid` submits it at `now`. */
    function Stored(uid: string, now: int): Doc
      reads this
    {
      StoredCollab(title, description, kind, branches, rolesNeeded, deadline, uid, now)
    }

    /** A type button. */
    method SelectType(id: string)
      requires Valid()
      modifies this
      ensures Valid()
      ensures kind == (if id in TypeIds then id else old(kind))
      ensures title == old(title) && description == old(description) && branches == old(branches)
      ensures rolesNeeded == old(rolesNeeded) && deadline == old(deadline)
    {
      if id in TypeIds {
        kind := id;
      }
    }

    /** Typing into the title; the input refuses more than 100 characters. */
    method EditTitle(t: string)
      requires Valid()
      modifies this
      ensures Valid()
      ensures title == (if |t| <= TitleMax then t else old(title))
      ensures kind == old(kind) && description == old(description) && branches == old(branches)
      ensures rolesNeeded == old(rolesNeeded) && deadline == old(deadline)
    {
      if |t| <= TitleMax {
        title := t;
      }
    }

    /** Typing into the description; the textarea refuses more than 500 characters. */
    method EditDescription(t: string)
      requires Valid()
      modifies this
      ensures Valid()
      ensures description == (if |t| <= DescriptionMax then t else old(description))
      ensures kind == old(kind) && title == old(title) && branches == old(branches)
      ensures rolesNeeded == old(rolesNeeded) && deadline == old(deadline)
    {
      if |t| <= DescriptionMax {
        description := t;
      }
    }

    /** Typing into the roles or the deadline input. */
    method EditRolesAndDeadline(roles: string, date: string)
      requires Valid()
      modifies this
      ensures Valid()
      ensures rolesNeeded == roles && deadline == date
      ensures kind == old(kind) && title == old(title) && description == old(description) && branches == old(branches)
    {
      rolesNeeded, deadline := roles, date;
    }

    /** `toggleBranch(branch)` from a branch button. */
    method ToggleBranch(b: string)
      requires Valid()
      modifies this
      ensures Valid()
      ensures branches == (if b in AvailableBranches then Toggle(old(branches), b) else old(branches))
      ensures kind == old(kind) && title == old(title) && description == old(description)
      ensures rolesNeeded == old(rolesNeeded) && deadline == old(deadline)
    {
      if b in AvailableBranches {
        ToggleKeepsNoDuplicates(branches, b);
        RemoveKeepsOthers(branches, b);
        branches := Toggle(branches, b);
      }
    }

    /** Back to the blank form after a successful submission. */
    method Reset()
      modifies this
      ensures Valid() && IsBlank()
    {
      title, description, kind, branches, rolesNeeded, deadline := "", "", "project", [], "", "";
    }

    /** `createCollab({...})` with the form's contents, owned by `uid`. */
    method Send(collabs: Collection, uid: string, newId: string, now: int, fails: bool) returns (r: Result<Doc>)
      requires newId !in collabs.docs
      modifies collabs
      ensures fails ==> r == Err(StoreFailure) && collabs.docs == old(collabs.docs)
      ensures !fails ==> r == Ok(WithId(newId, Stored(uid, now))) && collabs.docs == old(collabs.docs)[newId := Stored(uid, now)]
    {
      var data := CollabDoc(title, description, kind, branches, rolesNeeded, deadline, uid);
      r := CollabService.CreateCollab(collabs, data, newId, now, fails);
    }

    /**
     * `handleSubmit`: without a signed-in user or without a branch nothing is
     * sent; otherwise the collab is created from the form (open, owned by the
     * user, nobody interested yet, roles parsed from the comma list). A
     * success resets the form; a failure leaves the form as it was.
     */
    method HandleSubmit(collabs: Collection, user: Option<User>, newId: string, now: int, fails: bool)
      returns (outcome: SubmitOutcome)
      requires Valid() && newId !in collabs.docs
      modifies this, collabs
      ensures Valid()
      ensures outcome == NeedLogin <==> user.None?
      ensures outcome == NeedBranch <==> user.Some? && old(branches) == []
      ensures !outcome.Created? ==> collabs.docs == old(collabs.docs)
      ensures outcome.Failed? <==> user.Some? && old(branches) != [] && fails
      ensures !outcome.Created? ==>
        title == old(title) && description == old(description) && kind == old(kind)
        && branches == old(branches) && rolesNeeded == old(rolesNeeded) && deadline == old(deadline)
      ensures outcome.Created? ==>
        var d := old(Stored(user.value.uid, now));
        && outcome.collab == WithId(newId, d)
        && collabs.docs == old(collabs.docs)[newId := d]
        && IsBlank()
    {
      if user.None? {
        return NeedLogin;
      }
      if |branches| == 0 {
        return NeedBranch;
      }
      ghost var d := Stored(user.value.uid, now);
      var created := Send(collabs, user.value.uid, newId, now, fails);
      if created.Err? {
        return Failed(created.error);
      }
      assert created.value == WithId(newId, d) && collabs.docs == old(collabs.docs)[newId := d];

      Reset();
      return Created(created.value);
    }
  }

  /** The stored collab: the submitted document stamped with its creation time. */
  function StoredCollab(title: string, description: string, kind: string, branches: seq<string>,
                        rolesNeeded: string, deadline: string, uid: string, now: int): Doc
  {
    CollabService.StampCollab(CollabDoc(title, description, kind, branches, rolesNeeded, deadline, uid), now)
  }

  /**
   * A submitted collab is open, owned by the submitter, has nobody interested
   * yet and carries its creation time.
   */
  lemma SubmittedCollabIsOpen(title: string, description: string, kind: string, branches: seq<string>,
                              rolesNeeded: string, deadline: string, uid: string, now: int)
    ensures var d := StoredCollab(title, description, kind, branches, rolesNeeded, deadline, uid, now);
      && Get(d, "status") == Some(Str("open")) && Get(d, "createdBy") == Some(Str(uid))
      && Get(d, "interestedUsers") == Some(Arr([])) && Get(d, "interestedCount") == Some(Num(0))
      && Get(d, "createdAt") == Some(Time(now))
  {
  }

  /** A submitted collab carries the chosen type. */
  lemma SubmittedCollabType(title: string, description: string, kind: string, branches: seq<string>,
                            rolesNeeded: string, deadline: string, uid: string, now: int)
    ensures Get(StoredCollab(title, description, kind, branches, rolesNeeded, deadline, uid, now), "type") == Some(Str(kind))
  {
  }

  /** A submitted collab carries the chosen branches. */
  lemma SubmittedCollabBranches(title: string, description: string, kind: string, branches: seq<string>,
                                rolesNeeded: string, deadline: string, uid: string, now: int)
    ensures Get(StoredCollab(title, description, kind, branches, rolesNeeded, deadline, uid, now), "branches")
      == Some(Arr(Strs(branches)))
  {
  }

  /** A submitted collab holds the roles parsed from the comma list (see `ParsedRolesClean`). */
  lemma SubmittedCollabRoles(title: string, description: string, kind: string, branches: seq<string>,
                             rolesNeeded: string, deadline: string, uid: string, now: int)
    ensures Get(StoredCollab(title, description, kind, branches, rolesNeeded, deadline, uid, now), "rolesNeeded")
      == Some(Arr(Strs(ParseRoles(rolesNeeded))))
  {
  }

  /** The form never asks for target years, so a submitted collab has no `targetYears` field. */
  lemma SubmittedCollabHasNoYears(title: string, description: string, kind: string, branches: seq<string>,
                                  rolesNeeded: string, deadline: string, uid: string, now: int)
    ensures "targetYears" !in StoredCollab(title, description, kind, branches, rolesNeeded, deadline, uid, now)
  {
  }
}
