/**
 * The add-or-remove membership toggle that three forms share on their
 * lists of selected strings
 * (`list.includes(v) ? list.filter(x => x !== v) : [...list, v]`).
 */
module Lists {

  /** `xs.filter(x => x !== v)`: every occurrence of `v` removed, order kept. */
  function Remove(xs: seq<string>, v: string): seq<string> {
    if xs == [] then []
    else if xs[0] == v then Remove(xs[1..], v)
    else [xs[0]] + Remove(xs[1..], v)
  }

  /**
   * What the removal keeps: no `v`, and every other element with its
   * multiplicity (so also membership) unchanged.
   */
  lemma {:induction false} RemoveKeepsOthers(xs: seq<string>, v: string)
    ensures v !in Remove(xs, v)
    ensures forall w :: w != v ==> multiset(Remove(xs, v))[w] == multiset(xs)[w]
    ensures forall w :: w != v ==> (w in Remove(xs, v) <==> w in xs)
    ensures v !in xs ==> Remove(xs, v) == xs
  {
    if xs != [] {
      RemoveKeepsOthers(xs[1..], v);
      assert xs == [xs[0]] + xs[1..];
      assert multiset(xs) == multiset([xs[0]]) + multiset(xs[1..]);
    }
  }

  /** The toggle: remove `v` when it is selected, otherwise append it. */
  function Toggle(xs: seq<string>, v: string): seq<string> {
    if v in xs then Remove(xs, v) else xs + [v]
  }

  /** No element occurs twice. */
  predicate NoDuplicates(xs: seq<string>) {
    forall i, j :: 0 <= i < j < |xs| ==> xs[i] != xs[j]
  }

  /**
   * Toggling flips the membership of `v` and of nothing else: every other
   * element keeps its multiplicity, and the other elements keep their order.
   */
  lemma ToggleFlipsOne(xs: seq<string>, v: string)
    ensures v in Toggle(xs, v) <==> v !in xs
    ensures forall w :: w != v ==> multiset(Toggle(xs, v))[w] == multiset(xs)[w]
    ensures Remove(Toggle(xs, v), v) == Remove(xs, v)
  {
    RemoveKeepsOthers(xs, v);
    if v !in xs {
      RemoveAppend(xs, [v], v);
      assert Remove([v], v) == [];
      assert multiset(xs + [v]) == multiset(xs) + multiset{v};
    } else {
      RemoveKeepsOthers(Remove(xs, v), v);
    }
  }

  lemma {:induction false} RemoveAppend(a: seq<string>, b: seq<string>, v: string)
    ensures Remove(a + b, v) == Remove(a, v) + Remove(b, v)
  {
    if a == [] {
      assert a + b == b;
    } else {
      RemoveAppend(a[1..], b, v);
      assert (a + b)[0] == a[0];
      assert (a + b)[1..] == a[1..] + b;

    }
  }

  /** Toggling an unselected value twice restores the list exactly. */
  lemma ToggleTwice(xs: seq<string>, v: string)
    requires v !in xs
    ensures Toggle(Toggle(xs, v), v) == xs
  {
    RemoveAppend(xs, [v], v);
    RemoveKeepsOthers(xs, v);
    assert Remove([v], v) == [];
  }

  /** A list without duplicates stays without duplicates. */
  lemma ToggleKeepsNoDuplicates(xs: seq<string>, v: string)
    requires NoDuplicates(xs)
    ensures NoDuplicates(Toggle(xs, v))
  {
    if v in xs {
      RemoveNoDuplicates(xs, v);
    }
  }

  lemma {:induction false} RemoveNoDuplicates(xs: seq<string>, v: string)
    requires NoDuplicates(xs)
    ensures NoDuplicates(Remove(xs, v))
  {
    if xs != [] {
      RemoveNoDuplicates(xs[1..], v);
      var rest := Remove(xs[1..], v);
      RemoveKeepsOthers(xs[1..], v);
      if xs[0] != v {
        assert xs[0] !in xs[1..];
        assert xs[0] !in rest;
      }
    }
  }
}
