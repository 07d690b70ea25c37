/**
 * One sticky note on the vibe wall: its colour, its text (clamped until
 * expanded) and the heart button, which counts a heart at once and takes
 * it back if the store refuses the update.
 */
module VibeCard {
  import opened Js
  import opened Store
  import CreateVibeModal

  /** `colorClasses`: the palette names and their style classes. */
  const ColorClasses: map<string, string> := map[
    "pink" := "vibe-pink", "purple" := "vibe-purple", "orange" := "vibe-orange", "teal" := "vibe-teal",
    "yellow" := "vibe-yellow", "lime" := "vibe-lime", "blue" := "vibe-blue"]

  /** `colorClasses[vibe.color] || colorClasses.blue` */
  function ColorClass(color: Option<Value>): (r: string)
    ensures r in ColorClasses.Values
    ensures !(color.Some? && color.value.Str? && color.value.s in ColorClasses) ==> r == "vibe-blue"
  {
    if color.Some? && color.value.Str? && color.value.s in ColorClasses then ColorClasses[color.value.s]
    else ColorClasses["blue"]
  }

  /** Every colour the create form can pick has its own style, named after it. */
  lemma PaletteHasClasses(c: string)
    requires c in CreateVibeModal.Colors
    ensures ColorClass(Some(Str(c))) == "vibe-" + c
  {
  }

  const ClampLength := 120

  /** `!isExpanded && vibe.text.length > 120`: the text is cut to three lines. */
  predicate Clamped(expanded: bool, text: string) {
    !expanded && |text| > ClampLength
  }

  /** `vibe.heartsCount || 0` for a count that is a number or absent. */
  function InitialHearts(vibe: Doc): (n: int)
    ensures "heartsCount" !in vibe ==> n == 0
    ensures "heartsCount" in vibe && vibe["heartsCount"].Num? ==> n == vibe["heartsCount"].n
  {
    NumOrZero(Get(vibe, "heartsCount"))
  }

  class Card {
    const vibe: Doc
    const id: string
    var hearts: int
    var hasLiked: bool
    var isExpanded: bool
    /** The count the card was created with. */
    ghost const initial: int

    /** The shown count is the initial one, plus one exactly when this card has given its heart. */
    ghost predicate Valid()
      reads this
    {
      initial == InitialHearts(vibe) && hearts == initial + (if hasLiked then 1 else 0)
    }

    constructor (vibe: Doc, id: string)
      ensures Valid()
      ensures this.vibe == vibe && this.id == id
      ensures hearts == InitialHearts(vibe) && !hasLiked && !isExpanded
    {
      this.vibe, this.id := vibe, id;
      initial := InitialHearts(vibe);
      hearts, hasLiked, isExpanded := InitialHearts(vibe), false, false;
    }

    /**
     * A click on the note: expands or collapses it. A long text goes from
     * clamped to whole or back; a text of at most 120 characters is never
     * clamped.
     */
    method ToggleExpanded()
      modifies this
      ensures isExpanded == !old(isExpanded)
      ensures hearts == old(hearts) && hasLiked == old(hasLiked)
      ensures forall t :: |t| > ClampLength ==> (Clamped(isExpanded, t) <==> !Clamped(old(isExpanded), t))
      ensures forall t :: |t| <= ClampLength ==> !Clamped(isExpanded, t)
    {
      isExpanded := !isExpanded;
    }

    /**
     * `handleHeart`: ignored once this card has given its heart; otherwise
     * the count goes up by one and the card is marked liked before the
     * update `heartsCount: increment(1)` is sent. If the update fails (or the
     * vibe no longer exists) the count and the mark go back to their values
     * before the click.
     */
    method HandleHeart(vibes: Collection, fails: bool)
      requires Valid()
      modifies this, vibes
      ensures Valid()
      ensures hearts == initial || hearts == initial + 1
      ensures old(hasLiked) ==> hearts == old(hearts) && hasLiked && vibes.docs == old(vibes.docs)
      ensures !old(hasLiked) && !fails && id in old(vibes.docs) ==>
        && hearts == old(hearts) + 1 && hasLiked
        && vibes.docs == old(vibes.docs)[id := Incremented(old(vibes.docs)[id], "heartsCount")]
      ensures !old(hasLiked) && (fails || id !in old(vibes.docs)) ==>
        hearts == old(hearts) && !hasLiked && vibes.docs == old(vibes.docs)
      ensures isExpanded == old(isExpanded)
    {
      if hasLiked {
        return;
      }
      var before := hearts;
      hearts, hasLiked := before + 1, true;
      var updated := vibes.Increment(id, "heartsCount", fails);
      if updated.Err? {
        hearts, hasLiked := before, false;
      }
    }
  }
}
