/**
 * The collab board: three filter selects, the page of collabs fetched for
 * them, a second, client-side year filter over that page, the result count
 * and the show-interest button.
 */
module CollabBoard {
  import opened Js
  import opened Store
  import opened Strings
  import opened CollabService
  import Formatters

  const TypeOptions: seq<string> := ["all", "project", "hackathon", "startup", "study_group"]
  const BranchOptions: seq<string> := ["all", "CSE", "IT", "EC", "ME", "CE", "EE"]
  const YearOptions: seq<string> := ["all", "1", "2", "3", "4"]

  /** Every year option other than "all" is a numeral that `parseInt` reads as 1 to 4. */
  lemma YearOptionsParse(year: string)
    requires year in YearOptions && year != "all"
    ensures AllDigits(year) && 1 <= ParseNat(year) <= 4
    ensures year == NatToString(ParseNat(year))
  {
  }

  /**
   * The board's own year test, `collab => !(collab.targetYears &&
   * !collab.targetYears.includes(n))` with `n = parseInt(filters.year)`: a
   * collab without (truthy) target years is kept; one with target years is
   * kept when they include the number; target years that are neither an array
   * nor a string make `includes` throw.
   */
  function YearKeeps(n: int): Doc -> Result<bool> {
    d => if !Truthy(Get(d, "targetYears")) then Ok(true) else Includes(Get(d, "targetYears"), Num(n))
  }

  /** `filteredCollabs`: no filtering under "all", otherwise the board's year test. */
  function FilteredCollabs(collabs: seq<Doc>, year: string): Result<seq<Doc>>
    requires year in YearOptions
  {
    if year == "all" then Ok(collabs) else TryFilter(collabs, YearKeeps(ParseNat(year)))
  }

  /**
   * Under "all" every collab is shown. Under a year the shown collabs keep
   * their order, and a collab is shown exactly when it has no target years
   * or its target years include the year as a number.
   */
  lemma FilteredCollabsKeeps(collabs: seq<Doc>, year: string)
    requires year in YearOptions
    ensures year == "all" ==> FilteredCollabs(collabs, year) == Ok(collabs)
    ensures year != "all" && FilteredCollabs(collabs, year).Ok? ==>
      var shown := FilteredCollabs(collabs, year).value;
      && IsSublist(shown, collabs)
      && forall d :: d in collabs ==>
           (d in shown <==> !Truthy(Get(d, "targetYears")) || Includes(Get(d, "targetYears"), Num(ParseNat(year))) == Ok(true))
  {
    if year != "all" && FilteredCollabs(collabs, year).Ok? {
      TryFilterIsSublist(collabs, YearKeeps(ParseNat(year)));
    }
  }

  /** "opportunity" for exactly one shown collab, "opportunities" otherwise (zero included). */
  function CountNoun(count: nat): (r: string)
    ensures r == "opportunity" <==> count == 1
    ensures r == "opportunities" <==> count != 1
  {
    if count == 1 then "opportunity" else "opportunities"
  }

  /** The label of a year option. */
  function YearOptionLabel(year: string): string {
    if year == "all" then "All Years"
    else year + (if year == "1" then "st" else if year == "2" then "nd" else if year == "3" then "rd" else "th") + " Year"
  }

  /** The board's hand-written suffixes agree with the shared ordinal formatter on every year option. */
  lemma YearOptionLabelsAgree(year: string)
    requires year in YearOptions && year != "all"
    ensures YearOptionLabel(year) == Formatters.GetYearSuffix(ParseNat(year)) + " Year"
  {
    Formatters.GetYearSuffixForYearsOfStudy();
  }

  /**
   * What the board shows for a page: the service's three passes, then the
   * board's own year test. The year reaches the service as the string of the
   * select and the board as the number it parses to.
   */
  function Shown(page: seq<Doc>, kind: string, branch: string, year: string): Result<seq<Doc>>
    requires year in YearOptions
  {
    match TryFilter(page, Matches(Filters(Some(kind), Some(branch), Some(year))))
    case Err(e) => Err(e)
    case Ok(fetched) => FilteredCollabs(fetched, year)
  }

  /**
   * As written, a collab that targets year 2 with the number 2, and a
   * collab with no target years (as the create form writes them), are both
   * kept by the board's year test, yet the board shows neither: the service
   * drops them first, since it looks for the string "2".
   */
  lemma YearFilterHidesTargetedCollabs()
    ensures var targeted: Doc := map["type" := Str("project"), "targetYears" := Arr([Num(2)])];
      var untargeted: Doc := map["type" := Str("project")];
      && YearKeeps(2)(targeted) == Ok(true) && YearKeeps(2)(untargeted) == Ok(true)
      && Shown([targeted, untargeted], "all", "all", "2") == Ok([])
  {
    var targeted: Doc := map["type" := Str("project"), "targetYears" := Arr([Num(2)])];
    var untargeted: Doc := map["type" := Str("project")];
    var m := Matches(Filters(Some("all"), Some("all"), Some("2")));
    var p1, p2, p3 := Pass(Some("all"), KindTest), Pass(Some("all"), BranchTest), Pass(Some("2"), YearTest);
    assert !Active(Some("all")) && Active(Some("2"));
    assert p3 == YearTest("2");
    assert Get(targeted, "targetYears") == Some(Arr([Num(2)])) && Str("2") !in [Num(2)];
    assert p3(targeted) == Ok(false);
    assert Get(untargeted, "targetYears") == None;
    assert p3(untargeted) == Ok(false);
    assert p1(targeted) == Ok(true) && p2(targeted) == Ok(true);
    assert p1(untargeted) == Ok(true) && p2(untargeted) == Ok(true);
    assert m(targeted) == Ok(false);
    assert m(untargeted) == Ok(false);
    var page := [targeted, untargeted];
    assert page[1..] == [untargeted] && page[1..][1..] == [];
    assert TryFilter(page, m) == Ok([]);
    assert FilteredCollabs([], "2") == Ok([]);
  }

  /**
   * As written, under any year every shown collab has target years that
   * contain the year both as a string (for the service) and, when they form
   * an array, as a number (for the board), so no collab the create form
   * wrote is ever shown.
   */
  lemma YearFilterNeedsBothForms(page: seq<Doc>, kind: string, branch: string, year: string)
    requires year in YearOptions && year != "all"
    requires Shown(page, kind, branch, year).Ok?
    ensures forall d: Doc :: d in Shown(page, kind, branch, year).value ==>
      && "targetYears" in d
      && Includes(Get(d, "targetYears"), Str(year)) == Ok(true)
      && (d["targetYears"].Arr? ==> Str(year) in d["targetYears"].items && Num(ParseNat(year)) in d["targetYears"].items)
  {
    var f := Filters(Some(kind), Some(branch), Some(year));
    var fetched := TryFilter(page, Matches(f)).value;
    MatchesKeeps(f, page);
    var keep := YearKeeps(ParseNat(year));
    var shown := TryFilter(fetched, keep).value;
    assert Shown(page, kind, branch, year).value == shown;
    forall d: Doc | d in shown
      ensures "targetYears" in d && Includes(Get(d, "targetYears"), Str(year)) == Ok(true)
      ensures d["targetYears"].Arr? ==> Str(year) in d["targetYears"].items && Num(ParseNat(year)) in d["targetYears"].items
    {
      assert d in fetched && keep(d) == Ok(true);
    }
  }

  /** The corrected service pass: the board's own year test on the parsed year. */
  function FixedYearPass(year: Option<string>): Doc -> Result<bool> {
    if year.Some? && year.value in YearOptions && year.value != "all" then YearKeeps(ParseNat(year.value)) else KeepAll
  }

  /** The corrected single filter: type, then branch, then the board's year test. */
  function FixedMatches(filters: Filters): Doc -> Result<bool> {
    AndThen(AndThen(Pass(filters.kind, KindTest), Pass(filters.branch, BranchTest)), FixedYearPass(filters.year))
  }

  /**
   * With the corrected pass, a collab of the page is fetched exactly when it
   * has the type and branch asked for and the board's year test keeps it, so
   * collabs without target years and collabs targeting the year as a number
   * are shown; and the board's own year filter then removes nothing.
   */
  lemma FixedYearFilterShows(page: seq<Doc>, kind: string, branch: string, year: string)
    requires year in YearOptions
    requires TryFilter(page, FixedMatches(Filters(Some(kind), Some(branch), Some(year)))).Ok?
    ensures var f := Filters(Some(kind), Some(branch), Some(year));
      var fetched := TryFilter(page, FixedMatches(f)).value;
      && (forall d :: d in page ==>
            (d in fetched <==>
               && (Active(f.kind) ==> Get(d, "type") == Some(Str(kind)))
               && (Active(f.branch) ==> Includes(Get(d, "branches"), Str(branch)) == Ok(true))
               && (year != "all" ==> YearKeeps(ParseNat(year))(d) == Ok(true))))
      && FilteredCollabs(fetched, year) == Ok(fetched)
  {
    var f := Filters(Some(kind), Some(branch), Some(year));
    var fetched := TryFilter(page, FixedMatches(f)).value;
    if year != "all" {
      var keep := YearKeeps(ParseNat(year));
      forall i | 0 <= i < |fetched| ensures keep(fetched[i]).Ok? && keep(fetched[i]).value == KeepAll(fetched[i]).value {
        assert fetched[i] in fetched;
      }
      TryFilterAgree(fetched, keep, KeepAll);
      TryFilterKeepAll(fetched);
    }
  }

  /** The collab created by the form, which has no target years, passes the corrected year test for every year. */
  lemma FixedYearPassKeepsUntargeted(d: Doc, year: Option<string>)
    requires "targetYears" !in d
    ensures FixedYearPass(year)(d) == Ok(true)
  {
  }

  /** What pressing "I'm Interested" led to. */
  datatype InterestOutcome = NeedLogin | Failed(error: Error)

  class Board {
    var kind: string
    var branch: string
    var year: string
    var collabs: seq<Doc>
    var loading: bool

    /** The filters hold options of their selects. */
    predicate Valid()
      reads this
    {
      kind in TypeOptions && branch in BranchOptions && year in YearOptions
    }

    constructor ()
      ensures Valid()
      ensures kind == "all" && branch == "all" && year == "all" && collabs == [] && loading
    {
      kind, branch, year, collabs, loading := "all", "all", "all", [], true;
    }

    /** The `filters` object passed to `fetchCollabs`: every key present. */
    function CurrentFilters(): Filters
      reads this
    {
      Filters(Some(kind), Some(branch), Some(year))
    }

    /** A year select change; the board then loads the collabs again. */
    method SelectYear(y: string)
      requires Valid()
      modifies this
      ensures Valid()
      ensures year == (if y in YearOptions then y else old(year))
      ensures kind == old(kind) && branch == old(branch) && collabs == old(collabs)
    {
      if y in YearOptions {
        year := y;
      }
    }

    /** A type or branch select change; the board then loads the collabs again. */
    method SelectTypeAndBranch(t: string, b: string)
      requires Valid()
      modifies this
      ensures Valid()
      ensures kind == (if t in TypeOptions then t else old(kind))
      ensures branch == (if b in BranchOptions then b else old(branch))
      ensures year == old(year) && collabs == old(collabs)
    {
      if t in TypeOptions {
        kind := t;
      }
      if b in BranchOptions {
        branch := b;
      }
    }

    /**
     * `loadCollabs()`: the service's answer for the current filters, or no
     * collabs when the fetch throws; loading ends either way.
     */
    method LoadCollabs(run: Query -> Result<seq<Entry>>)
      requires Valid()
      modifies this
      ensures Valid() && !loading
      ensures kind == old(kind) && branch == old(branch) && year == old(year)
      ensures var answer := run(CollabsQuery);
        collabs == (if answer.Ok? && TryFilter(Materialize(answer.value), Matches(CurrentFilters())).Ok?
                    then TryFilter(Materialize(answer.value), Matches(CurrentFilters())).value
                    else [])
    {
      loading := true;
      var fetched := FetchCollabs(CurrentFilters(), run);
      if fetched.Ok? {
        collabs := fetched.value;
      } else {
        collabs := [];
      }
      loading := false;
    }

    /**
     * `handleShowInterest(collabId)`: without a signed-in user no call is
     * made; otherwise `showInterest` throws before writing, so the board
     * reports the failure and neither the store nor the shown collabs change.
     */
    method HandleShowInterest(store: Collection, user: Option<User>, collabId: string) returns (outcome: InterestOutcome)
      ensures outcome == NeedLogin <==> user.None?
      ensures outcome.Failed? ==> outcome.error == ReferenceError
    {
      if user.None? {
        return NeedLogin;
      }
      var r := ShowInterest(store, collabId, user.value.uid);
      return Failed(r.error);
    }
  }
}
