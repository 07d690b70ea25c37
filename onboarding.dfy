/**
 * The three-step onboarding wizard: year and branch, then at least three
 * interests, then at least one skill, after which the profile document is
 * written under the user's id.
 */
module Onboarding {
  import opened Js
  import opened Store
  import opened Strings
  import opened Lists
  import Formatters

  const Interests: seq<string> := ["Hackathons", "Startups", "Projects", "Design", "Content Creation",
    "Placements", "Internships", "Sports", "Music", "Photography", "Gaming", "Coding"]
  const Skills: seq<string> := ["Web Development", "App Development", "ML/AI", "UI/UX Design", "Video Editing",
    "Graphic Design", "Content Writing", "Management", "Hardware/IoT", "Data Science"]
  const Branches: seq<string> := ["CSE", "IT", "EC", "ME", "CE", "EE"]
  const Years: seq<int> := [1, 2, 3, 4]

  /** The label of a year button: `{year}{'st' | 'nd' | 'rd' | 'th'} Year`. */
  function YearButtonLabel(year: int): string {
    IntToString(year) + (if year == 1 then "st" else if year == 2 then "nd" else if year == 3 then "rd" else "th") + " Year"
  }

  /** The wizard's hand-written suffixes agree with the shared ordinal formatter on the four years. */
  lemma YearButtonLabelsAgree(year: int)
    requires year in Years
    ensures YearButtonLabel(year) == Formatters.GetYearSuffix(year) + " Year"
  {
    Formatters.GetYearSuffixIsOrdinal(year);
  }

  /** The outcome of pressing "Complete Profile". */
  datatype Outcome = Ignored | Saved | Failed(error: Error)

  /** `user.displayName || user.email.split('@')[0]`; with neither, reading `split` of null throws. */
  function ProfileName(user: User): (r: Result<string>)
    ensures r.Err? <==> !HasDisplayName(user) && user.email.None?
    ensures r.Err? ==> r.error == TypeError
    ensures HasDisplayName(user) ==> r == Ok(user.displayName.value)
    ensures !HasDisplayName(user) && user.email.Some? ==>
      r.Ok? && '@' !in r.value && r.value <= user.email.value
    ensures !HasDisplayName(user) && user.email.Some? ==> r == Ok(LocalPart(user.email.value))
  {
    if HasDisplayName(user) then Ok(user.displayName.value)
    else if user.email.Some? then Ok(LocalPart(user.email.value))
    else Err(TypeError)
  }

  /** `user.email`, stored as null when unset. */
  function EmailValue(user: User): Value {
    if user.email.Some? then Str(user.email.value) else Null
  }

  class Wizard {
    var step: int
    var year: Option<int>        // '' until a year button is pressed
    var branch: Option<string>   // '' until a branch button is pressed
    var interests: seq<string>
    var skills: seq<string>

    /**
     * The wizard's invariant: the step is 1, 2 or 3; year and branch, once
     * chosen, are among the offered ones and are chosen before step 2; step 3
     * is reached only with at least three interests; the selections are
     * offered values without repeats.
     */
    predicate Valid()
      reads this
    {
      && 1 <= step <= 3
      && (year.Some? ==> year.value in Years)
      && (branch.Some? ==> branch.value in Branches)
      && (step >= 2 ==> year.Some? && branch.Some?)
      && (step == 3 ==> |interests| >= 3)
      && NoDuplicates(interests) && (forall x :: x in interests ==> x in Interests)
      && NoDuplicates(skills) && (forall x :: x in skills ==> x in Skills)
    }

    constructor ()
      ensures Valid()
      ensures step == 1 && year == None && branch == None && interests == [] && skills == []
    {
      step, year, branch, interests, skills := 1, None, None, [], [];
    }

    /** `canProceed()`: what enables Next (steps 1 and 2) and Complete Profile (step 3). */
    predicate CanProceed()
      reads this
    {
      if step == 1 then year.Some? && branch.Some?
      else if step == 2 then |interests| >= 3
      else if step == 3 then |skills| >= 1
      else false
    }

    /** The `formData` object as it is spread into the profile document. */
    function FormDoc(): (d: Doc)
      reads this
      ensures d.Keys == {"year", "branch", "interests", "skills"}
      ensures d["interests"] == Arr(Strs(interests)) && d["skills"] == Arr(Strs(skills))
    {
      map["year" := (if year.Some? then Num(year.value) else Str("")),
          "branch" := (if branch.Some? then Str(branch.value) else Str("")),
          "interests" := Arr(Strs(interests)),
          "skills" := Arr(Strs(skills))]
    }

    /** A year button (shown at step 1 only). */
    method SelectYear(y: int)
      requires Valid()
      modifies this
      ensures Valid()
      ensures year == (if old(step) == 1 && y in Years then Some(y) else old(year))
      ensures step == old(step) && branch == old(branch) && interests == old(interests) && skills == old(skills)
    {
      if step == 1 && y in Years {
        year := Some(y);
      }
    }

    /** A branch button (shown at step 1 only). */
    method SelectBranch(b: string)
      requires Valid()
      modifies this
      ensures Valid()
      ensures branch == (if old(step) == 1 && b in Branches then Some(b) else old(branch))
      ensures step == old(step) && year == old(year) && interests == old(interests) && skills == old(skills)
    {
      if step == 1 && b in Branches {
        branch := Some(b);
      }
    }

    /** `toggleSelection('interests', v)` from an interest button (shown at step 2 only). */
    method ToggleInterest(v: string)
      requires Valid()
      modifies this
      ensures Valid()
      ensures interests == (if old(step) == 2 && v in Interests then Toggle(old(interests), v) else old(interests))
      ensures step == old(step) && year == old(year) && branch == old(branch) && skills == old(skills)
    {
      if step == 2 && v in Interests {
        ToggleKeepsNoDuplicates(interests, v);
        RemoveKeepsOthers(interests, v);
        interests := Toggle(interests, v);
      }
    }

    /** `toggleSelection('skills', v)` from a skill button (shown at step 3 only). */
    method ToggleSkill(v: string)
      requires Valid()
      modifies this
      ensures Valid()
      ensures skills == (if old(step) == 3 && v in Skills then Toggle(old(skills), v) else old(skills))
      ensures step == old(step) && year == old(year) && branch == old(branch) && interests == old(interests)
    {
      if step == 3 && v in Skills {
        ToggleKeepsNoDuplicates(skills, v);
        RemoveKeepsOthers(skills, v);
        skills := Toggle(skills, v);
      }
    }

    /** Next (shown below step 3, disabled unless `canProceed()`). */
    method Next()
      requires Valid()
      modifies this
      ensures Valid()
      ensures step == (if old(step) < 3 && old(CanProceed()) then old(step) + 1 else old(step))
      ensures year == old(year) && branch == old(branch) && interests == old(interests) && skills == old(skills)
    {
      if step < 3 && CanProceed() {
        step := step + 1;
      }
    }

    /** Back (shown above step 1). */
    method Back()
      requires Valid()
      modifies this
      ensures Valid()
      ensures step == (if old(step) > 1 then old(step) - 1 else old(step))
      ensures year == old(year) && branch == old(branch) && interests == old(interests) && skills == old(skills)
    {
      if step > 1 {
        step := step - 1;
      }
    }

    /**
     * `handleComplete()` from Complete Profile (shown at step 3, disabled
     * unless `canProceed()`): writes `{ ...formData, email, name,
     * onboardingComplete: true, createdAt }` under the user's id. No signed-in
     * user, or no display name and no e-mail, throws a TypeError before the
     * write; a failed write changes nothing. A saved profile always has a year,
     * a branch, at least three interests and at least one skill.
     */
    method Complete(users: Collection, user: Option<User>, now: int, fails: bool) returns (outcome: Outcome)
      requires Valid()
      modifies users
      ensures outcome == Ignored <==> step != 3 || |skills| < 1
      ensures outcome != Saved ==> users.docs == old(users.docs)
      ensures outcome.Failed? <==> step == 3 && |skills| >= 1 && (user.None? || ProfileName(user.value).Err? || fails)
      ensures outcome == Saved <==> step == 3 && |skills| >= 1 && user.Some? && ProfileName(user.value).Ok? && !fails
      ensures fails ==> outcome != Saved && users.docs == old(users.docs)
      ensures outcome == Saved ==>
        && user.Some? && ProfileName(user.value).Ok?
        && users.docs == old(users.docs)[user.value.uid := FormDoc() + map[
             "email" := EmailValue(user.value),
             "name" := Str(ProfileName(user.value).value),
             "onboardingComplete" := Bool(true),
             "createdAt" := Time(now)]]
        && year.Some? && branch.Some? && |interests| >= 3 && |skills| >= 1
    {
      if step != 3 || |skills| < 1 {
        return Ignored;
      }
      if user.None? {
        return Failed(TypeError);
      }
      var u := user.value;
      var name := ProfileName(u);
      if name.Err? {
        return Failed(name.error);
      }
      var profile := FormDoc() + map[
        "email" := EmailValue(u),
        "name" := Str(name.value),
        "onboardingComplete" := Bool(true),
        "createdAt" := Time(now)];
      var written := users.Put(u.uid, profile, fails);
      if written.Err? {
        return Failed(written.error);
      }
      return Saved;
    }
  }
}
