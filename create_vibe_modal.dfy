/**
 * The "Share Your Vibe" form: a type and up to 300 characters of text,
 * posted anonymously in a colour picked at random from a fixed palette.
 */
module CreateVibeModal {
  import opened Js
  import opened Store
  import opened Strings
  import VibeService

  const VibeTypes: seq<string> := ["compliment", "gratitude", "confession"]
  const Colors: seq<string> := ["pink", "purple", "orange", "teal", "yellow", "lime", "blue"]
  const CharLimit := 300

  /**
   * `colors[Math.floor(Math.random() * colors.length)]`; `random` is the
   * value `Math.random()` returned, which lies in [0, 1).
   */
  function RandomColor(random: real): (c: string)
    requires 0.0 <= random < 1.0
    ensures c in Colors
  {
    var i := (random * |Colors| as real).Floor;
    assert 0 <= i < |Colors|;
    Colors[i]
  }

  /** `charLimit - text.length` */
  function Remaining(text: string): int {
    CharLimit - |text|
  }

  /** Within the input's limit the counter runs from 300 (empty) down to 0 (full), never below. */
  lemma RemainingBounds(text: string)
    requires |text| <= CharLimit
    ensures 0 <= Remaining(text) <= CharLimit
    ensures Remaining(text) == 0 <==> |text| == CharLimit
    ensures Remaining(text) == CharLimit <==> text == ""
  {
  }

  datatype CounterStyle = Red | Yellow | Grey

  /** The counter's colour: red under 50 left, yellow under 100, grey otherwise. */
  function CounterColor(remaining: int): CounterStyle {
    if remaining < 50 then Red else if remaining < 100 then Yellow else Grey
  }

  /**
   * In terms of the text typed: grey up to 200 characters, yellow from 201
   * to 250, red from 251 on.
   */
  lemma CounterColorByLength(text: string)
    ensures CounterColor(Remaining(text)) == Grey <==> |text| <= 200
    ensures CounterColor(Remaining(text)) == Yellow <==> 200 < |text| <= 250
    ensures CounterColor(Remaining(text)) == Red <==> |text| > 250
  {
  }

  /** `disabled={!text.trim() || loading}`, negated. */
  predicate CanSubmit(text: string, loading: bool) {
    Trim(text) != "" && !loading
  }

  /** The button is enabled exactly when nothing is pending and the text is not all white space. */
  lemma CanSubmitIffText(text: string, loading: bool)
    ensures CanSubmit(text, loading) <==> !loading && HasText(text)
  {
    TrimNonEmpty(text);
  }

  /** The vibe document the form writes, stamped with its creation time. */
  function StoredVibe(text: string, kind: string, color: string, now: int): Doc {
    map["text" := Str(text), "type" := Str(kind), "color" := Str(color),
        "heartsCount" := Num(0), "heartedBy" := Arr([]), "createdAt" := Time(now)]
  }

  /**
   * The form writes the document itself rather than through `createVibe`,
   * and what it writes is exactly what `createVibe` would store for the
   * text, the type and the colour.
   */
  lemma StoredVibeIsCreateVibe(text: string, kind: string, color: string, now: int)
    ensures StoredVibe(text, kind, color, now)
      == VibeService.StampVibe(map["text" := Str(text), "type" := Str(kind), "color" := Str(color)], now)
  {
    var data := map["text" := Str(text), "type" := Str(kind), "color" := Str(color)];
    var d, e := StoredVibe(text, kind, color, now), VibeService.StampVibe(data, now);
    assert d.Keys == e.Keys;
    forall k | k in d ensures d[k] == e[k] {
    }
  }

  /** A stored vibe has the form's text and type, a palette colour, no hearts and nobody who hearted it. */
  lemma StoredVibeFacts(text: string, kind: string, random: real, now: int)
    requires 0.0 <= random < 1.0
    ensures var d := StoredVibe(text, kind, RandomColor(random), now);
      && Get(d, "text") == Some(Str(text)) && Get(d, "type") == Some(Str(kind))
      && Get(d, "color").Some? && d["color"].Str? && d["color"].s in Colors
      && Get(d, "heartsCount") == Some(Num(0)) && Get(d, "heartedBy") == Some(Arr([]))
  {
  }

  class Form {
    var text: string
    var kind: string

    /** The type is one of the three offered and the text is within the limit. */
    predicate Valid()
      reads this
    {
      kind in VibeTypes && |text| <= CharLimit
    }

    /** `{ text: '', type: 'compliment' }` */
    predicate IsBlank()
      reads this
    {
      text == "" && kind == "compliment"
    }

    constructor ()
      ensures Valid() && IsBlank()
    {
      text, kind := "", "compliment";
    }

    /** A type button. */
    method SelectType(id: string)
      requires Valid()
      modifies this
      ensures Valid()
      ensures kind == (if id in VibeTypes then id else old(kind)) && text == old(text)
    {
      if id in VibeTypes {
        kind := id;
      }
    }

    /** Typing into the message; the textarea refuses more than 300 characters. */
    method EditText(t: string)
      requires Valid()
      modifies this
      ensures Valid()
      ensures text == (if |t| <= CharLimit then t else old(text)) && kind == old(kind)
      ensures 0 <= Remaining(text) <= CharLimit
    {
      if |t| <= CharLimit {
        text := t;
      }
    }

    /** Back to the blank form after a successful post. */
    method Reset()
      modifies this
      ensures Valid() && IsBlank()
    {
      text, kind := "", "compliment";
    }

    /**
     * `handleSubmit`: writes the vibe with a random palette colour (no
     * sign-in is needed: vibes are anonymous). A success resets the form; a
     * failure leaves it and the store as they were.
     */
    method HandleSubmit(vibes: Collection, random: real, newId: string, now: int, fails: bool) returns (r: Result<()>)
      requires Valid() && newId !in vibes.docs && 0.0 <= random < 1.0
      modifies this, vibes
      ensures Valid()
      ensures r.Err? <==> fails
      ensures r.Err? ==> vibes.docs == old(vibes.docs) && text == old(text) && kind == old(kind)
      ensures r.Ok? ==>
        && vibes.docs == old(vibes.docs)[newId := StoredVibe(old(text), old(kind), RandomColor(random), now)]
        && IsBlank()
    {
      var color := RandomColor(random);
      var added := vibes.Add(newId, StoredVibe(text, kind, color, now), fails);
      if added.Err? {
        return Err(added.error);
      }
      Reset();
      return Ok(());
    }
  }
}
