/** The Russian renderer (scripts/prompt.py:234-389): a gender guessed from
    the label's ending when none is known, a precedence table of case slots
    that fails when no slot is present, and words in the template whose form
    depends on the subject's or the object's gender. */
module PromptRU {
  import opened Wrappers
  import opened Text
  import opened Script
  import opened Inflection
  import opened Prompt

  /** The language code handed to the inflection engine. */
  const Language := "rus"

  /** `PromptRU.SUFS`: final consonants of masculine nouns. */
  predicate IsSuffix(c: char) {
    c in {'\U{0431}', '\U{0432}', '\U{0433}', '\U{0434}', '\U{0436}', '\U{0437}', '\U{043A}',
          '\U{043B}', '\U{043C}', '\U{043D}', '\U{043F}', '\U{0440}', '\U{0441}', '\U{0442}',
          '\U{0444}', '\U{0445}', '\U{0446}', '\U{0447}', '\U{0448}', '\U{0449}'}
  }

  /** The feminine endings: a LATIN small letter a (as written in the
      source, not the Cyrillic one) and 'я'. */
  predicate FeminineEnding(c: char) {
    c == 'a' || c == '\U{044F}'
  }

  /** The neuter endings 'о', 'е' and 'ё'. */
  predicate NeuterEnding(c: char) {
    c == '\U{043E}' || c == '\U{0435}' || c == '\U{0451}'
  }

  // ---------------------------------------------------------------------------
  // Gender

  /** `PromptRU.gender_heuristic`: the last character of the stripped word
      decides; a blank word has no last character. */
  function GenderHeuristic(w: string): (r: Result<string>)
    ensures r.Err? <==> Strip(w, IsSpace) == ""
    ensures r.Err? ==> r.error == IndexOutOfRange
    ensures r.Ok? ==>
              var s := Strip(w, IsSpace);
              && (r.value == "FEM" <==> FeminineEnding(s[|s| - 1]))
              && (r.value == "NEUT" <==> NeuterEnding(s[|s| - 1]))
              && (r.value == "MASC" <==> !FeminineEnding(s[|s| - 1]) && !NeuterEnding(s[|s| - 1]))
  {
    var s := Strip(w, IsSpace);
    if |s| == 0 then Err(IndexOutOfRange)
    else
      var c := s[|s| - 1];
      if FeminineEnding(c) then Ok("FEM")
      else if NeuterEnding(c) then Ok("NEUT")
      else if c == '\U{0439}' || IsSuffix(c) then Ok("MASC")
      else Ok("MASC")
  }

  /** The heuristic looks through surrounding whitespace. */
  lemma GenderHeuristicStrips(w: string)
    ensures GenderHeuristic(Strip(w, IsSpace)) == GenderHeuristic(w)
  {
    StripIdempotent(w, IsSpace);
  }

  /** The subject's gender in `fill_x`: the table's for a known gender, the
      heuristic's for `'none'` (already upper case). */
  function SubjectGender(gender: string, name: string): (r: Result<string>)
    ensures gender != "none" ==> r == GenderMap(gender)
    ensures gender == "none" ==> r == GenderHeuristic(name)
    ensures r.Ok? ==> r.value == "MASC" || r.value == "FEM" || r.value == "NEUT"
  {
    if gender != "none" then GenderMap(gender) else GenderHeuristic(name)
  }

  // ---------------------------------------------------------------------------
  // Slots

  /** Subject slots in precedence order. */
  const XSlots := [Slot("[X]", "NOM", false), Slot("[X.Nom]", "NOM", false), Slot("[X.Masc.Nom]", "NOM", false),
                   Slot("[X.Gen]", "GEN", true), Slot("[X.Ess]", "ESS", true)]

  /** The subject slot that forces a masculine subject. */
  const MasculineSlot := "[X.Masc.Nom]"

  /** Object slots in precedence order. */
  const YSlots := [Slot("[Y]", "NOM", false), Slot("[Y.Nom]", "NOM", false), Slot("[Y.Gen]", "GEN", true),
                   Slot("[Y.Acc]", "ACC", true), Slot("[Y.Dat]", "DAT", true), Slot("[Y.Ess]", "ESS", true),
                   Slot("[Y.Ins]", "INS", true)]

  // ---------------------------------------------------------------------------
  // Gender-dependent words

  /** `[a;..|b;..]`: the first alternative for a masculine or feminine
      entity, the second otherwise, each cut at its first ';'. A word without
      a second alternative fails for a neuter entity. */
  function ChooseAlternative(w: string, gender: string): (r: Result<string>)
    ensures (gender == "MASC" || gender == "FEM") ==> r.Ok?
    ensures r.Ok? ==> ';' !in r.value
    ensures r.Err? <==> gender != "MASC" && gender != "FEM" && |Split(Inner(Strip(w, IsSpace)), '|')| < 2
    ensures r.Ok? ==>
              var options := Split(Inner(Strip(w, IsSpace)), '|');
              var k := if gender == "MASC" || gender == "FEM" then 0 else 1;
              k < |options| && FirstPiece(Strip(options[k], IsSpace), ';', r.value)
  {
    var options := Split(Inner(Strip(w, IsSpace)), '|');
    if gender == "MASC" || gender == "FEM" then
      SplitFirst(Strip(options[0], IsSpace), ';');
      Ok(Split(Strip(options[0], IsSpace), ';')[0])
    else if |options| < 2 then Err(IndexOutOfRange)
    else
      SplitFirst(Strip(options[1], IsSpace), ';');
      Ok(Split(Strip(options[1], IsSpace), ';')[0])
  }

  /** The lemma of a `[lemma.Tag]` word: its inside up to the first '.'. */
  function WordLemma(w: string): (r: string)
    ensures FirstPiece(Inner(Strip(w, IsSpace)), '.', r)
  {
    SplitFirst(Inner(Strip(w, IsSpace)), '.');
    Split(Inner(Strip(w, IsSpace)), '.')[0]
  }

  /** A lemma-style word becomes its lemma, inflected as a past-tense verb
      (`Pst`) or a long adjective (`Lgspec1`) in the given gender when
      inflection is on. */
  function InflectGenderWord(w: string, gender: string, inflectionOn: bool, inflect: Inflector): (r: Result<string>)
    ensures !inflectionOn ==> r == Ok(WordLemma(w))
    ensures r.Err? ==> inflectionOn && (Contains(w, "Pst") || Contains(w, "Lgspec1"))
    ensures r.Ok? && inflectionOn && Contains(w, "Pst") ==>
              var forms := inflect(WordLemma(w), "V;PST;SG;" + gender, Language);
              |forms| > 0 && r.value == forms[0]
    ensures r.Ok? && inflectionOn && !Contains(w, "Pst") && Contains(w, "Lgspec1") ==>
              var forms := inflect(WordLemma(w), "ADJ;" + gender + ";SG;LGSPEC1", Language);
              |forms| > 0 && r.value == forms[0]
  {
    var base := WordLemma(w);
    if !inflectionOn then Ok(base)
    else if Contains(w, "Pst") then FirstForm(inflect, base, "V;PST;SG;" + gender, Language)
    else if Contains(w, "Lgspec1") then FirstForm(inflect, base, "ADJ;" + gender + ";SG;LGSPEC1", Language)
    else Ok(base)
  }

  /** One word of the loop: an empty word fails on its first character; a
      word opening with '[' and naming the marker is rewritten; any other
      word stays. Alternatives are recognised in subject words only. */
  function RewriteWord(w: string, marker: string, alternatives: bool, gender: string,
                       inflectionOn: bool, inflect: Inflector): (r: Result<string>)
    ensures r.Err? ==> r.error == IndexOutOfRange
  {
    if |w| == 0 then Err(IndexOutOfRange)
    else if !(w[0] == '[' && Contains(w, marker)) then Ok(w)
    else if alternatives && '|' in w then ChooseAlternative(w, gender)
    else InflectGenderWord(w, gender, inflectionOn, inflect)
  }

  /** The loop over the words, left to right: each word rewritten on its
      own, the first failure ending it. */
  function RewriteWords(words: seq<string>, marker: string, alternatives: bool, gender: string,
                        inflectionOn: bool, inflect: Inflector): (r: Result<seq<string>>)
    ensures r.Ok? <==> forall j :: 0 <= j < |words| ==> RewriteWord(words[j], marker, alternatives, gender, inflectionOn, inflect).Ok?
    ensures r.Ok? ==> |r.value| == |words|
    ensures r.Ok? ==> forall j :: 0 <= j < |words| ==>
                         r.value[j] == RewriteWord(words[j], marker, alternatives, gender, inflectionOn, inflect).value
    decreases |words|
  {
    if |words| == 0 then Ok([])
    else
      var earlier :- RewriteWords(words[..|words| - 1], marker, alternatives, gender, inflectionOn, inflect);
      assert forall j :: 0 <= j < |words| - 1 ==> words[..|words| - 1][j] == words[j];
      var last :- RewriteWord(words[|words| - 1], marker, alternatives, gender, inflectionOn, inflect);
      Ok(earlier + [last])
  }

  /** The loop up to word `n + 1` is the loop up to word `n`, then word `n`. */
  lemma RewriteWordsSnoc(words: seq<string>, n: nat, marker: string, alternatives: bool, gender: string,
                         inflectionOn: bool, inflect: Inflector)
    requires n < |words|
    ensures var prev := RewriteWords(words[..n], marker, alternatives, gender, inflectionOn, inflect);
            var w := RewriteWord(words[n], marker, alternatives, gender, inflectionOn, inflect);
            RewriteWords(words[..n + 1], marker, alternatives, gender, inflectionOn, inflect)
              == if prev.Err? then prev else if w.Err? then Err(w.error) else Ok(prev.value + [w.value])
  {
    assert words[..n + 1][..n] == words[..n];
  }

  /** One more word rewritten in place extends the loop's progress. */
  lemma RewriteWordsStep(words: seq<string>, out: seq<string>, i: nat, form: string, marker: string,
                         alternatives: bool, gender: string, inflectionOn: bool, inflect: Inflector)
    requires i < |words| == |out| && out[i..] == words[i..]
    requires RewriteWords(words[..i], marker, alternatives, gender, inflectionOn, inflect) == Ok(out[..i])
    requires RewriteWord(words[i], marker, alternatives, gender, inflectionOn, inflect) == Ok(form)
    ensures out[i := form][i + 1..] == words[i + 1..]
    ensures RewriteWords(words[..i + 1], marker, alternatives, gender, inflectionOn, inflect) == Ok(out[i := form][..i + 1])
  {
    RewriteWordsSnoc(words, i, marker, alternatives, gender, inflectionOn, inflect);
    assert out[i := form][..i + 1] == out[..i] + [form];
    assert out[i := form][i + 1..] == out[i + 1..];
  }

  /** Every failure of the loop is an index error. */
  lemma {:induction false} RewriteWordsFailure(words: seq<string>, marker: string, alternatives: bool, gender: string,
                                               inflectionOn: bool, inflect: Inflector)
    ensures var r := RewriteWords(words, marker, alternatives, gender, inflectionOn, inflect);
            r.Err? ==> r.error == IndexOutOfRange
    decreases |words|
  {
    if |words| > 0 {
      RewriteWordsFailure(words[..|words| - 1], marker, alternatives, gender, inflectionOn, inflect);
    }
  }

  /** With inflection off, the gender words never consult the engine. */
  lemma {:induction false} RewriteWordsInflectionOff(words: seq<string>, marker: string, alternatives: bool,
                                                     gender: string, inflect: Inflector, other: Inflector)
    ensures RewriteWords(words, marker, alternatives, gender, false, inflect)
         == RewriteWords(words, marker, alternatives, gender, false, other)
    decreases |words|
  {
    if |words| > 0 {
      RewriteWordsInflectionOff(words[..|words| - 1], marker, alternatives, gender, inflect, other);
    }
  }

  // ---------------------------------------------------------------------------
  // fill_x and fill_y

  /** The subject slot stage: without a subject slot `fill_x` raises. */
  function SubjectSlot(words: seq<string>, name: string, dni: bool, inflect: Inflector): Result<Placed> {
    var placed :- PlaceSlot(words, XSlots, name, "SG", dni, inflect, Language, None);
    if placed.None? then Err(Raised("no X")) else Ok(placed.value)
  }

  /** The object slot stage: without an object slot `fill_y` raises. */
  function ObjectSlot(words: seq<string>, name: string, dni: bool, inflect: Inflector,
                      masks: Option<string>): Result<Placed>
  {
    var placed :- PlaceSlot(words, YSlots, name, "SG", dni, inflect, Language, masks);
    if placed.None? then Err(Raised("no Y")) else Ok(placed.value)
  }

  /** `PromptRU.fill_x` as a composition of its stages. */
  function RenderX(env: Env, settings: Settings, prompt: string, name: string, gender: string): Result<Rendered> {
    var subjectGender :- SubjectGender(gender, name);
    var dni := SomeRomanChars(env.chars, name) || IsUpperText(env.chars, name) || 'x' in settings.disableInflection;
    var p :- SubjectSlot(Split(prompt, ' '), name, dni, env.inflect);
    var g := if p.slot.word == MasculineSlot then "MASC" else subjectGender;
    var words :- RewriteWords(p.words, "X-Gender", true, g, settings.disableInflection == {}, env.inflect);
    Ok(Rendered(Join(" ", words), p.name))
  }

  /** `PromptRU.fill_y` as a composition of its stages. Its do-not-inflect
      test reads the subject's flag `'x'`, and its gender words receive the
      caller's gender as given. */
  function RenderY(env: Env, settings: Settings, prompt: string, name: string, gender: string,
                   numMask: int, maskSym: string): Result<Rendered>
  {
    var dni := SomeRomanChars(env.chars, name) || IsUpperText(env.chars, name) || 'x' in settings.disableInflection;
    var masks := if numMask <= 0 then None else Some(MaskRun(maskSym, numMask));
    var p :- ObjectSlot(Split(prompt, ' '), name, dni, env.inflect, masks);
    var words :- RewriteWords(p.words, "Y-Gender", false, gender, settings.disableInflection == {}, env.inflect);
    Ok(Rendered(Join(" ", words), p.name))
  }

  // ---------------------------------------------------------------------------
  // What the renderings promise

  /** Without a subject slot `fill_x` raises "no X". */
  lemma RenderXWithoutSlot(env: Env, settings: Settings, prompt: string, name: string, gender: string)
    requires SubjectGender(gender, name).Ok?
    requires forall k :: 0 <= k < |XSlots| ==> XSlots[k].word !in Split(prompt, ' ')
    ensures RenderX(env, settings, prompt, name, gender) == Err(Raised("no X"))
  {
    assert FirstSlot(Split(prompt, ' '), XSlots) == None;
  }

  /** Without an object slot `fill_y` raises "no Y". */
  lemma RenderYWithoutSlot(env: Env, settings: Settings, prompt: string, name: string, gender: string,
                           numMask: int, maskSym: string)
    requires forall k :: 0 <= k < |YSlots| ==> YSlots[k].word !in Split(prompt, ' ')
    ensures RenderY(env, settings, prompt, name, gender, numMask, maskSym) == Err(Raised("no Y"))
  {
    assert FirstSlot(Split(prompt, ' '), YSlots) == None;
  }

  /** A template whose subject slot is `[X.Masc.Nom]` renders the same for
      every subject gender that resolves: the slot forces MASC. */
  lemma MasculineSlotForcesGender(env: Env, settings: Settings, prompt: string, name: string,
                                  gender: string, otherGender: string)
    requires FirstSlot(Split(prompt, ' '), XSlots) == Some(2)
    requires SubjectGender(gender, name).Ok? && SubjectGender(otherGender, name).Ok?
    ensures RenderX(env, settings, prompt, name, gender) == RenderX(env, settings, prompt, name, otherGender)
  {
    var dni := SomeRomanChars(env.chars, name) || IsUpperText(env.chars, name) || 'x' in settings.disableInflection;
    var p := SubjectSlot(Split(prompt, ' '), name, dni, env.inflect);
    if p.Ok? {
      assert p.value.slot == XSlots[2];
    }
  }

  /** With `'x'` disabled, `fill_x` never consults the inflection engine and
      returns the label unchanged. */
  lemma RenderXInflectionOff(env: Env, other: Inflector, settings: Settings, prompt: string, name: string, gender: string)
    requires 'x' in settings.disableInflection
    ensures RenderX(env, settings, prompt, name, gender) == RenderX(Env(other, env.chars), settings, prompt, name, gender)
    ensures RenderX(env, settings, prompt, name, gender).Ok? ==> RenderX(env, settings, prompt, name, gender).value.name == name
  {
    var words := Split(prompt, ' ');
    assert SubjectSlot(words, name, true, env.inflect) == SubjectSlot(words, name, true, other);
    var p := SubjectSlot(words, name, true, env.inflect);
    if p.Ok? {
      var subjectGender := SubjectGender(gender, name);
      if subjectGender.Ok? {
        var g := if p.value.slot.word == MasculineSlot then "MASC" else subjectGender.value;
        RewriteWordsInflectionOff(p.value.words, "X-Gender", true, g, env.inflect, other);
      }
    }
  }

  /** `fill_y` reads the subject's flag: with `'x'` disabled it never
      consults the inflection engine and returns the label unchanged. */
  lemma RenderYSubjectFlag(env: Env, other: Inflector, settings: Settings, prompt: string, name: string,
                           gender: string, numMask: int, maskSym: string)
    requires 'x' in settings.disableInflection
    ensures RenderY(env, settings, prompt, name, gender, numMask, maskSym)
         == RenderY(Env(other, env.chars), settings, prompt, name, gender, numMask, maskSym)
    ensures RenderY(env, settings, prompt, name, gender, numMask, maskSym).Ok? ==>
              RenderY(env, settings, prompt, name, gender, numMask, maskSym).value.name == name
  {
    var words := Split(prompt, ' ');
    var masks := if numMask <= 0 then None else Some(MaskRun(maskSym, numMask));
    assert ObjectSlot(words, name, true, env.inflect, masks) == ObjectSlot(words, name, true, other, masks);
    var p := ObjectSlot(words, name, true, env.inflect, masks);
    if p.Ok? {
      RewriteWordsInflectionOff(p.value.words, "Y-Gender", false, gender, env.inflect, other);
    }
  }

  /** `fill_y` ignores its own flag: once inflection is disabled for
      anything, adding `'y'` changes nothing. */
  lemma RenderYIgnoresObjectFlag(env: Env, settings: Settings, prompt: string, name: string,
                                 gender: string, numMask: int, maskSym: string)
    requires settings.disableInflection != {}
    ensures RenderY(env, settings.(disableInflection := settings.disableInflection + {'y'}),
                    prompt, name, gender, numMask, maskSym)
         == RenderY(env, settings, prompt, name, gender, numMask, maskSym)
  {
    var more := settings.disableInflection + {'y'};
    assert 'x' in more <==> 'x' in settings.disableInflection;
    assert more != {};
  }

  // ---------------------------------------------------------------------------
  // The methods, step by step as the source runs them

  /** The do-not-inflect test of `fill_x` and `fill_y` before the flag,
      through the `latin_letters` memo. */
  method KeepsForm(latin: LatinMemo, name: string) returns (b: bool)
    requires latin.Valid()
    modifies latin
    ensures latin.Valid()
    ensures b == (SomeRomanChars(latin.tables, name) || IsUpperText(latin.tables, name))
  {
    var roman := latin.SomeRoman(name);
    b := roman || IsUpperText(latin.tables, name);
  }

  /** The subject slot chain of `PromptRU.fill_x`. */
  method PlaceX(cache: InflectCache, words: seq<string>, name: string, doNotInflect: bool)
    returns (r: Result<Placed>)
    requires cache.Valid()
    modifies cache
    ensures cache.Valid()
    ensures r == SubjectSlot(words, name, doNotInflect, cache.inflect)
  {
    ghost var first := FirstSlot(words, XSlots);
    assert XSlots[1..] == [XSlots[1], XSlots[2], XSlots[3], XSlots[4]];
    assert XSlots[1..][1..] == [XSlots[2], XSlots[3], XSlots[4]];
    assert XSlots[1..][1..][1..] == [XSlots[3], XSlots[4]];
    assert XSlots[1..][1..][1..][1..] == [XSlots[4]];
    var i := 0;
    var form := name;
    var matched := XSlots[0];
    if "[X]" in words {
      assert first == Some(0);
      i := IndexOf(words, "[X]");
    } else if "[X.Nom]" in words {
      assert first == Some(1);
      i := IndexOf(words, "[X.Nom]");
      matched := XSlots[1];
    } else if "[X.Masc.Nom]" in words {
      assert first == Some(2);
      i := IndexOf(words, "[X.Masc.Nom]");
      matched := XSlots[2];
    } else if "[X.Gen]" in words {
      assert first == Some(3);
      i := IndexOf(words, "[X.Gen]");
      matched := XSlots[3];
      if !doNotInflect {
        assert NounFeatures("GEN", "SG") == "N;GEN;SG";
        var forms := cache.Inflect(name, "N;GEN;SG", Language);
        if |forms| == 0 {
          return Err(IndexOutOfRange);
        }
        form := forms[0];
      }
    } else if "[X.Ess]" in words {
      assert first == Some(4);
      i := IndexOf(words, "[X.Ess]");
      matched := XSlots[4];
      if !doNotInflect {
        assert NounFeatures("ESS", "SG") == "N;ESS;SG";
        var forms := cache.Inflect(name, "N;ESS;SG", Language);
        if |forms| == 0 {
          return Err(IndexOutOfRange);
        }
        form := forms[0];
      }
    } else {
      return Err(Raised("no X"));
    }
    return Ok(Placed(words[i := form], form, matched, i));
  }

  /** The tests of the object slot chain of `PromptRU.fill_y`, in order:
      which slot the template holds first. */
  method FindY(words: seq<string>) returns (first: Option<nat>)
    ensures first == FirstSlot(words, YSlots)
  {
    assert YSlots[1..] == [YSlots[1], YSlots[2], YSlots[3], YSlots[4], YSlots[5], YSlots[6]];
    assert YSlots[1..][1..] == [YSlots[2], YSlots[3], YSlots[4], YSlots[5], YSlots[6]];
    assert YSlots[1..][1..][1..] == [YSlots[3], YSlots[4], YSlots[5], YSlots[6]];
    assert YSlots[1..][1..][1..][1..] == [YSlots[4], YSlots[5], YSlots[6]];
    assert YSlots[1..][1..][1..][1..][1..] == [YSlots[5], YSlots[6]];
    assert YSlots[1..][1..][1..][1..][1..][1..] == [YSlots[6]];
    if "[Y]" in words {
      first := Some(0);
    } else if "[Y.Nom]" in words {
      first := Some(1);
    } else if "[Y.Gen]" in words {
      first := Some(2);
    } else if "[Y.Acc]" in words {
      first := Some(3);
    } else if "[Y.Dat]" in words {
      first := Some(4);
    } else if "[Y.Ess]" in words {
      first := Some(5);
    } else if "[Y.Ins]" in words {
      first := Some(6);
    } else {
      first := None;
    }
  }

  /** The object slot chain of `PromptRU.fill_y`; the slot word becomes the
      masks, or the label when there are none. */
  method PlaceY(cache: InflectCache, words: seq<string>, name: string, doNotInflect: bool,
                masks: Option<string>) returns (r: Result<Placed>)
    requires cache.Valid()
    modifies cache
    ensures cache.Valid()
    ensures r == ObjectSlot(words, name, doNotInflect, cache.inflect, masks)
  {
    var first := FindY(words);
    if first.None? {
      return Err(Raised("no Y"));
    }
    var matched := YSlots[first.value];
    var i := IndexOf(words, matched.word);
    // Each oblique branch inflects the label into its own case.
    var form := name;
    if matched.inflected && !doNotInflect {
      assert NounFeatures(matched.caseTag, "SG") == "N;" + matched.caseTag + ";SG";
      var forms := cache.Inflect(name, "N;" + matched.caseTag + ";SG", Language);
      if |forms| == 0 {
        return Err(IndexOutOfRange);
      }
      form := forms[0];
    }
    return Ok(Placed(words[i := if masks.Some? then masks.value else form], form, matched, i));
  }

  /** The body of the gender-word loop, for one word. */
  method RewriteGenderWord(cache: InflectCache, w: string, marker: string, alternatives: bool,
                           gender: string, inflectionOn: bool) returns (r: Result<string>)
    requires cache.Valid()
    modifies cache
    ensures cache.Valid()
    ensures r == RewriteWord(w, marker, alternatives, gender, inflectionOn, cache.inflect)
  {
    if |w| == 0 {
      return Err(IndexOutOfRange);
    }
    if !(w[0] == '[' && Contains(w, marker)) {
      return Ok(w);
    }
    if alternatives && '|' in w {
      var option := Split(Inner(Strip(w, IsSpace)), '|');
      if gender == "MASC" || gender == "FEM" {
        return Ok(Split(Strip(option[0], IsSpace), ';')[0]);
      }
      if |option| < 2 {
        return Err(IndexOutOfRange);
      }
      return Ok(Split(Strip(option[1], IsSpace), ';')[0]);
    }
    var base := Split(Inner(Strip(w, IsSpace)), '.')[0];
    var form := base;
    if inflectionOn {
      if Contains(w, "Pst") {
        var forms := cache.Inflect(base, "V;PST;SG;" + gender, Language);
        if |forms| == 0 {
          return Err(IndexOutOfRange);
        }
        form := forms[0];
      } else if Contains(w, "Lgspec1") {
        var forms := cache.Inflect(base, "ADJ;" + gender + ";SG;LGSPEC1", Language);
        if |forms| == 0 {
          return Err(IndexOutOfRange);
        }
        form := forms[0];
      }
    }
    return Ok(form);
  }

  /** The gender-word loop of `fill_x` (`marker` "X-Gender", alternatives
      recognised) and `fill_y` (`marker` "Y-Gender"): each word is
      overwritten in place, the first failure ending the loop. */
  method RewriteGenderWords(cache: InflectCache, words: seq<string>, marker: string, alternatives: bool,
                            gender: string, inflectionOn: bool) returns (r: Result<seq<string>>)
    requires cache.Valid()
    modifies cache
    ensures cache.Valid()
    ensures r == RewriteWords(words, marker, alternatives, gender, inflectionOn, cache.inflect)
  {
    RewriteWordsFailure(words, marker, alternatives, gender, inflectionOn, cache.inflect);
    var out := words;
    var i := 0;
    while i < |out|
      invariant 0 <= i <= |out| == |words|
      invariant cache.Valid()
      invariant out[i..] == words[i..]
      invariant RewriteWords(words[..i], marker, alternatives, gender, inflectionOn, cache.inflect) == Ok(out[..i])
    {
      assert out[i] == words[i];
      var form := RewriteGenderWord(cache, out[i], marker, alternatives, gender, inflectionOn);
      if form.Err? {
        assert RewriteWords(words, marker, alternatives, gender, inflectionOn, cache.inflect).Err?;
        return Err(IndexOutOfRange);
      }
      RewriteWordsStep(words, out, i, form.value, marker, alternatives, gender, inflectionOn, cache.inflect);
      out := out[i := form.value];
      i := i + 1;
    }
    assert words[..i] == words && out[..i] == out;
    return Ok(out);
  }

  /** `PromptRU.fill_x`, through the `latin_letters` memo and the inflection
      cache. */
  method FillX(latin: LatinMemo, cache: InflectCache, settings: Settings,
               prompt: string, name: string, gender: string) returns (r: Result<Rendered>)
    requires latin.Valid() && cache.Valid()
    modifies latin, cache
    ensures latin.Valid() && cache.Valid()
    ensures r == RenderX(Env(cache.inflect, latin.tables), settings, prompt, name, gender)
  {
    var subjectGender := if gender != "none" then GenderMap(gender) else GenderHeuristic(name);
    if subjectGender.Err? {
      return Err(subjectGender.error);
    }
    var doNotInflect := KeepsForm(latin, name);
    if 'x' in settings.disableInflection {
      doNotInflect := true;
    }
    var placed := PlaceX(cache, Split(prompt, ' '), name, doNotInflect);
    if placed.Err? {
      return Err(placed.error);
    }
    var g := subjectGender.value;
    if placed.value.slot.word == MasculineSlot {
      g := "MASC";
    }
    var words := RewriteGenderWords(cache, placed.value.words, "X-Gender", true, g, settings.disableInflection == {});
    if words.Err? {
      return Err(words.error);
    }
    return Ok(Rendered(Join(" ", words.value), placed.value.name));
  }

  /** `PromptRU.fill_y`, through the `latin_letters` memo and the inflection
      cache. */
  method FillY(latin: LatinMemo, cache: InflectCache, settings: Settings,
               prompt: string, name: string, gender: string, numMask: int, maskSym: string)
    returns (r: Result<Rendered>)
    requires latin.Valid() && cache.Valid()
    modifies latin, cache
    ensures latin.Valid() && cache.Valid()
    ensures r == RenderY(Env(cache.inflect, latin.tables), settings, prompt, name, gender, numMask, maskSym)
  {
    var maskRun := MaskRun(maskSym, numMask);
    var doNotInflect := KeepsForm(latin, name);
    if 'x' in settings.disableInflection {
      doNotInflect := true;
    }
    var placed := PlaceY(cache, Split(prompt, ' '), name, doNotInflect, if numMask <= 0 then None else Some(maskRun));
    if placed.Err? {
      return Err(placed.error);
    }
    var words := RewriteGenderWords(cache, placed.value.words, "Y-Gender", false, gender,
                                    settings.disableInflection == {});
    if words.Err? {
      return Err(words.error);
    }
    return Ok(Rendered(Join(" ", words.value), placed.value.name));
  }
}
