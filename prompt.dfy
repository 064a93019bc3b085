/** The default renderer and what every language variant shares
    (scripts/prompt.py:30-51): plain substitution of `[X]` and `[Y]`, the
    constructor settings, the gender table and the slot-table stage the
    inflecting variants build on. */
module Prompt {
  import opened Wrappers
  import opened Text
  import opened Script
  import opened Inflection

  /** What a renderer consults besides the template: the morphology engine and
      Unicode's character tables. */
  datatype Env = Env(inflect: Inflector, chars: CharTables)

  /** A constructor's settings: the slot letters of `disable_inflection`
      (`set("xy")` is {'x', 'y'}) and `disable_article`. */
  datatype Settings = Settings(disableInflection: set<char>, disableArticle: bool)

  /** A rendering: the filled template, and the label form put into it. */
  datatype Rendered = Rendered(text: string, name: string)

  /** `GENDER_MAP[gender]` (scripts/prompt.py:31-35). */
  function GenderMap(gender: string): (r: Result<string>)
    ensures r.Ok? <==> gender == "male" || gender == "female" || gender == "none"
    ensures r.Err? ==> r.error == MissingKey(gender)
    ensures r.Ok? ==> r.value == "MASC" || r.value == "FEM" || r.value == "NEUT"
    ensures r.Ok? && r.value == "NEUT" ==> gender == "none"
  {
    if gender == "male" then Ok("MASC")
    else if gender == "female" then Ok("FEM")
    else if gender == "none" then Ok("NEUT")
    else Err(MissingKey(gender))
  }

  /** `' '.join([mask_sym] * num_mask)`. */
  function MaskRun(maskSym: string, numMask: int): string {
    Join(" ", Repeat(maskSym, numMask))
  }

  /** A positive number of masks is that many mask symbols, each separated
      from the next by a single space. */
  lemma MaskRunWords(maskSym: string, numMask: int)
    requires numMask > 0
    requires ' ' !in maskSym
    ensures Split(MaskRun(maskSym, numMask), ' ') == Repeat(maskSym, numMask)
  {
    SplitJoin(Repeat(maskSym, numMask), ' ');
  }

  // ---------------------------------------------------------------------------
  // The default variant

  /** `Prompt.fill_x`. */
  function FillX(prompt: string, name: string): Rendered {
    Rendered(Replace(prompt, "[X]", name), name)
  }

  /** `Prompt.fill_y`: the label itself when `num_mask <= 0`, else the masks. */
  function FillY(prompt: string, name: string, numMask: int, maskSym: string): Rendered {
    if numMask <= 0 then Rendered(Replace(prompt, "[Y]", name), name)
    else Rendered(Replace(prompt, "[Y]", MaskRun(maskSym, numMask)), name)
  }

  /** A slot word `[c]` cannot overlap the text before its first occurrence. */
  lemma SlotFirstAfter(a: string, slot: string, b: string)
    requires |slot| == 3 && slot[0] == '[' && slot[1] != '[' && slot[2] == ']'
    requires !Contains(a, slot)
    ensures Find(a + slot + b, slot) == Some(|a|)
  {
    var s := a + slot + b;
    assert s[|a|..|a| + 3] == slot;
    forall j: nat | j < |a| ensures !OccursAt(s, slot, j) {
      if j + 3 <= |a| {
        assert !OccursAt(a, slot, j);
        assert s[j..j + 3] == a[j..j + 3];
      } else if j == |a| - 1 {
        assert s[j + 1] == '[';
      } else {
        assert s[j + 2] == '[';
      }
    }
    FindIs(s, slot, |a|);
  }

  /** Default `fill_x` puts the label in place of the first `[X]` and carries
      on with the rest; without `[X]` the template is returned as it is. The
      label is returned unchanged. */
  lemma FillXSubstitutes(a: string, b: string, name: string)
    requires !Contains(a, "[X]")
    ensures FillX(a, name) == Rendered(a, name)
    ensures FillX(a + "[X]" + b, name) == Rendered(a + name + FillX(b, name).text, name)
  {
    SlotFirstAfter(a, "[X]", b);
    var s := a + "[X]" + b;
    assert s[..|a|] == a && s[|a| + 3..] == b;
  }

  /** Default `fill_y` puts the label (no masks) or the mask run in place of
      the first `[Y]` and carries on; the returned label is the input label. */
  lemma FillYSubstitutes(a: string, b: string, name: string, numMask: int, maskSym: string)
    requires !Contains(a, "[Y]")
    ensures FillY(a, name, numMask, maskSym) == Rendered(a, name)
    ensures FillY(a + "[Y]" + b, name, numMask, maskSym)
         == Rendered(a + (if numMask <= 0 then name else MaskRun(maskSym, numMask))
                        + FillY(b, name, numMask, maskSym).text, name)
  {
    SlotFirstAfter(a, "[Y]", b);
    var s := a + "[Y]" + b;
    assert s[..|a|] == a && s[|a| + 3..] == b;
  }

  // ---------------------------------------------------------------------------
  // The slot stage of the inflecting variants

  /** A subject or object placeholder: its word, the case it asks for and
      whether that case is produced by inflecting the label. */
  datatype Slot = Slot(word: string, caseTag: string, inflected: bool)

  /** The first slot of a precedence table that occurs among the words. */
  function FirstSlot(words: seq<string>, slots: seq<Slot>): (r: Option<nat>)
    ensures r.Some? ==> r.value < |slots| && slots[r.value].word in words
    ensures r.Some? ==> forall k :: 0 <= k < r.value ==> slots[k].word !in words
    ensures r.None? ==> forall k :: 0 <= k < |slots| ==> slots[k].word !in words
  {
    if |slots| == 0 then None
    else if slots[0].word in words then Some(0)
    else match FirstSlot(words, slots[1..])
      case Some(k) => Some(k + 1)
      case None => None
  }

  /** `f"N;{case};{number}"`. */
  function NounFeatures(caseTag: string, number: string): string {
    "N;" + caseTag + ";" + number
  }

  /** The outcome of the slot stage: the words after the slot was overwritten,
      the label form used, the slot that matched and where it was. */
  datatype Placed = Placed(words: seq<string>, name: string, slot: Slot, at: nat)

  /** The first slot of the table present in the words is overwritten, at its
      first occurrence only, with the mask run when one is given and with the
      label otherwise; an oblique slot inflects the label first unless
      inflection is off. No slot present gives `None`; an engine with no
      candidate gives an index error. */
  function PlaceSlot(words: seq<string>, slots: seq<Slot>, name: string, number: string,
                     doNotInflect: bool, inflect: Inflector, language: string,
                     masks: Option<string>): (r: Result<Option<Placed>>)
    ensures FirstSlot(words, slots).None? <==> r == Ok(None)
    ensures r.Err? ==>
              var slot := slots[FirstSlot(words, slots).value];
              slot.inflected && !doNotInflect
              && inflect(name, NounFeatures(slot.caseTag, number), language) == []
    ensures r.Ok? && r.value.Some? ==>
              var p := r.value.value;
              && p.slot == slots[FirstSlot(words, slots).value]
              && p.at < |words| && words[p.at] == p.slot.word
              && (forall j :: 0 <= j < p.at ==> words[j] != p.slot.word)
              && |p.words| == |words|
              && p.words[p.at] == (if masks.Some? then masks.value else p.name)
              && (forall j :: 0 <= j < |words| && j != p.at ==> p.words[j] == words[j])
              && (!p.slot.inflected || doNotInflect ==> p.name == name)
              && (p.slot.inflected && !doNotInflect ==>
                    var forms := inflect(name, NounFeatures(p.slot.caseTag, number), language);
                    |forms| > 0 && p.name == forms[0])
  {
    match FirstSlot(words, slots)
    case None => Ok(None)
    case Some(k) =>
      var slot := slots[k];
      var form :- if slot.inflected && !doNotInflect
                  then FirstForm(inflect, name, NounFeatures(slot.caseTag, number), language)
                  else Ok(name);
      var at := IndexOf(words, slot.word);
      Ok(Some(Placed(words[at := if masks.Some? then masks.value else form], form, slot, at)))
  }
}
