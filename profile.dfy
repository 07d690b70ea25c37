/**
 * The profile page's derived values: the initials in the avatar, the
 * profile shown when none is stored, the year label and the phone line.
 */
module Profile {
  import opened Js
  import opened Store
  import opened Strings
  import Formatters

  /** `pieces.map(n => n[0]).join('')`: the first character of each piece; an empty piece gives `undefined`, which joins as nothing. */
  function Heads(pieces: seq<string>): string {
    if pieces == [] then "" else (if pieces[0] == "" then "" else [pieces[0][0]]) + Heads(pieces[1..])
  }

  /** `name.split(' ').map(n => n[0]).join('').toUpperCase()` */
  function Initials(name: string): string {
    ToUpper(Heads(Split(name, ' ')))
  }

  lemma {:induction false} HeadsAppend(a: seq<string>, b: seq<string>)
    ensures Heads(a + b) == Heads(a) + Heads(b)
  {
    if a == [] {
      assert a + b == b;
    } else {
      var ab := a + b;
      assert ab[0] == a[0] && ab[1..] == a[1..] + b;
      HeadsAppend(a[1..], b);
      var h := if a[0] == "" then "" else [a[0][0]];
      calc {
        Heads(ab);
        h + Heads(ab[1..]);
        h + (Heads(a[1..]) + Heads(b));
        (h + Heads(a[1..])) + Heads(b);
      }
    }
  }

  lemma ToUpperAppend(a: string, b: string)
    ensures ToUpper(a + b) == ToUpper(a) + ToUpper(b)
  {
    var l, r := ToUpper(a + b), ToUpper(a) + ToUpper(b);
    assert |l| == |r|;
    forall i | 0 <= i < |l| ensures l[i] == r[i] {
      if i < |a| {
        assert (a + b)[i] == a[i];
      } else {
        assert (a + b)[i] == b[i - |a|];
      }
    }
  }

  /** Names joined by a space have the initials of the first followed by those of the second. */
  lemma InitialsAppend(a: string, b: string)
    ensures Initials(a + " " + b) == Initials(a) + Initials(b)
  {
    assert a + " " + b == a + [' '] + b;
    SplitAppend(a, b, ' ');
    HeadsAppend(Split(a, ' '), Split(b, ' '));
    ToUpperAppend(Heads(Split(a, ' ')), Heads(Split(b, ' ')));
  }

  /** A single word gives its first letter, upper-cased; an empty name gives no initials. */
  lemma InitialsOfWord(w: string)
    requires ' ' !in w
    ensures w != "" ==> Initials(w) == [UpperChar(w[0])]
    ensures w == "" ==> Initials(w) == ""
  {
    SplitNoSeparator(w, ' ');
    assert Heads([w]) == (if w == "" then "" else [w[0]]) + Heads([]);
  }

  /** A leading or a trailing space adds no initial: " Ada " gives "A". */
  lemma InitialsIgnoreOuterSpace(s: string)
    ensures Initials(" " + s) == Initials(s)
    ensures Initials(s + " ") == Initials(s)
  {
    InitialsOfWord("");
    assert " " + s == "" + " " + s;
    InitialsAppend("", s);
    assert s + " " == s + " " + "";
    InitialsAppend(s, "");
  }

  /** A repeated space adds no initial: "Ada  Lovelace" gives the same as "Ada Lovelace". */
  lemma InitialsIgnoreRepeatedSpace(a: string, b: string)
    ensures Initials(a + "  " + b) == Initials(a + " " + b)
  {
    assert a + "  " + b == a + " " + (" " + b);
    InitialsAppend(a, " " + b);
    InitialsIgnoreOuterSpace(b);
    InitialsAppend(a, b);
  }

  /** `user.year === 1 ? '1st' : user.year === 2 ? '2nd' : user.year === 3 ? '3rd' : '4th'`, compared strictly. */
  function YearLabel(year: Option<Value>): string {
    if year == Some(Num(1)) then "1st"
    else if year == Some(Num(2)) then "2nd"
    else if year == Some(Num(3)) then "3rd"
    else "4th"
  }

  /**
   * The label is the ordinal of years 1 to 4 stored as numbers; any other
   * value, a year stored as a string included, reads "4th".
   */
  lemma YearLabelIsOrdinal(year: Option<Value>)
    ensures year.Some? && year.value.Num? && 1 <= year.value.n <= 4 ==>
      YearLabel(year) == Formatters.GetYearSuffix(year.value.n)
    ensures !(year.Some? && year.value.Num? && 1 <= year.value.n <= 3) ==> YearLabel(year) == "4th"
  {
    Formatters.GetYearSuffixForYearsOfStudy();
  }

  /** `user.phone || 'Not provided'` */
  function PhoneLabel(phone: Option<Value>): (r: Value)
    ensures Truthy(phone) ==> r == phone.value
    ensures !Truthy(phone) ==> r == Str("Not provided")
  {
    if Truthy(phone) then phone.value else Str("Not provided")
  }

  /**
   * The profile shown when none is stored: the signed-in user's name (or
   * "User"), the e-mail (or empty), first year, no branch and no interests
   * or skills.
   */
  function FallbackProfile(user: Option<User>): Doc {
    map["name" := Str(if user.Some? then NameOr(user.value, "User") else "User"),
        "email" := Str(if user.Some? && user.value.email.Some? then user.value.email.value else ""),
        "year" := Num(1), "branch" := Str("N/A"), "interests" := Arr([]), "skills" := Arr([])]
  }

  /** `userProfile || fallback`: a stored profile is shown as it is. */
  function ShownProfile(stored: Option<Doc>, user: Option<User>): (d: Doc)
    ensures stored.Some? ==> d == stored.value
  {
    if stored.Some? then stored.value else FallbackProfile(user)
  }

  /**
   * Without a stored profile the page shows a non-empty name, first year,
   * "N/A" for the branch and empty interests and skills; the name is the
   * display name when there is one, else the e-mail's non-empty local
   * part, and "User" when nobody is signed in or neither gives a name.
   */
  lemma FallbackProfileFacts(user: Option<User>)
    ensures var d := ShownProfile(None, user);
      && d["name"].Str? && d["name"].s != ""
      && (user.Some? && HasDisplayName(user.value) ==> d["name"] == Str(user.value.displayName.value))
      && (user.None? ==> d["name"] == Str("User"))
      && (user.Some? ==> d["name"] == Str(NameOr(user.value, "User")))
      && (user.Some? && !HasDisplayName(user.value) && user.value.email.Some? && LocalPart(user.value.email.value) != "" ==>
            d["name"] == Str(LocalPart(user.value.email.value)))
      && d["year"] == Num(1) && YearLabel(Get(d, "year")) == "1st"
      && d["branch"] == Str("N/A") && d["interests"] == Arr([]) && d["skills"] == Arr([])
  {
  }
}
