/** The Greek renderer (scripts/prompt.py:63-225): number and gender read off
    the label's ending, a do-not-inflect test, a precedence table of case
    slots, and definite/indefinite articles looked up in a key-to-form table
    loaded from a tab-separated file. */
module PromptEL {
  import opened Wrappers
  import opened Text
  import opened Script
  import opened Inflection
  import opened Prompt

  /** The language code handed to the inflection engine. */
  const Language := "ell2"

  /** `PromptEL.SUFS`: final consonants that mark a label as not inflectable. */
  predicate IsSuffix(c: char) {
    c in {'\U{03B2}', '\U{03B3}', '\U{03B4}', '\U{03B6}', '\U{03BA}', '\U{03BB}', '\U{03BC}',
          '\U{03BD}', '\U{03BE}', '\U{03C0}', '\U{03C1}', '\U{03C4}', '\U{03C6}', '\U{03C7}',
          '\U{03C8}'}
  }

  /** "ες", the feminine plural ending. */
  const PluralFeminine := "\U{03B5}\U{03C2}"

  /** 'ά', the neuter plural ending. */
  const PluralNeuter := '\U{03AC}'

  // ---------------------------------------------------------------------------
  // The article file

  /** One line of `articles.txt`: stripped, split at tabs; the second field is
      the key, the first the article form. Fewer than two fields is an index
      error. */
  function ArticleLine(line: string): Result<(string, string)> {
    var fields := Split(Strip(line, IsSpace), '\t');
    if |fields| < 2 then Err(IndexOutOfRange) else Ok((fields[1], fields[0]))
  }

  /** The table `PromptEL.__init__` builds from the lines of the file. */
  function ArticleTable(lines: seq<string>): (r: Result<map<string, string>>)
    ensures r.Ok? <==> forall j :: 0 <= j < |lines| ==> ArticleLine(lines[j]).Ok?
    ensures r.Err? ==> r.error == IndexOutOfRange
    decreases |lines|
  {
    if |lines| == 0 then Ok(map[])
    else
      var earlier :- ArticleTable(lines[..|lines| - 1]);
      assert forall j :: 0 <= j < |lines| - 1 ==> lines[..|lines| - 1][j] == lines[j];
      var entry :- ArticleLine(lines[|lines| - 1]);
      Ok(earlier[entry.0 := entry.1])
  }

  /** Every line's key is in the table, and it maps to the form of the last
      line with that key. */
  lemma {:induction false} ArticleTableLastWins(lines: seq<string>, j: nat)
    requires ArticleTable(lines).Ok? && j < |lines|
    ensures ArticleLine(lines[j]).value.0 in ArticleTable(lines).value
    ensures (forall k :: j < k < |lines| ==> ArticleLine(lines[k]).value.0 != ArticleLine(lines[j]).value.0) ==>
              ArticleTable(lines).value[ArticleLine(lines[j]).value.0] == ArticleLine(lines[j]).value.1
    decreases |lines|
  {
    var init := lines[..|lines| - 1];
    var earlier := ArticleTable(init);
    var entry := ArticleLine(lines[|lines| - 1]);
    assert ArticleTable(lines) == Ok(earlier.value[entry.value.0 := entry.value.1]);
    if j < |lines| - 1 {
      assert init[j] == lines[j];
      ArticleTableLastWins(init, j);
    }
  }

  /** The table holds no key that no line carries, so a key missing from
      every line is a `KeyError` when looked up. */
  lemma {:induction false} ArticleTableOnlyLines(lines: seq<string>, key: string)
    requires ArticleTable(lines).Ok? && key in ArticleTable(lines).value
    ensures exists j :: 0 <= j < |lines| && ArticleLine(lines[j]).value.0 == key
    decreases |lines|
  {
    var init := lines[..|lines| - 1];
    var entry := ArticleLine(lines[|lines| - 1]);
    assert ArticleTable(lines) == Ok(ArticleTable(init).value[entry.value.0 := entry.value.1]);
    if key != entry.value.0 {
      ArticleTableOnlyLines(init, key);
      var j :| 0 <= j < |init| && ArticleLine(init[j]).value.0 == key;
      assert init[j] == lines[j];
    }
  }

  /** `PromptEL.__init__`'s loop over the file: a later line with the same key
      overwrites an earlier one. */
  method LoadArticles(lines: seq<string>) returns (r: Result<map<string, string>>)
    ensures r == ArticleTable(lines)
  {
    var article: map<string, string> := map[];
    var n := 0;
    while n < |lines|
      invariant 0 <= n <= |lines|
      invariant ArticleTable(lines[..n]) == Ok(article)
    {
      var fields := Split(Strip(lines[n], IsSpace), '\t');
      if |fields| < 2 {
        assert ArticleLine(lines[n]).Err?;
        return Err(IndexOutOfRange);
      }
      assert ArticleLine(lines[n]) == Ok((fields[1], fields[0]));
      assert lines[..n + 1][..n] == lines[..n];
      article := article[fields[1] := fields[0]];
      n := n + 1;
    }
    assert lines[..n] == lines;
    r := Ok(article);
  }

  // ---------------------------------------------------------------------------
  // Number, gender and whether to inflect

  /** Grammatical number and gender of an entity. */
  datatype Agreement = Agreement(number: string, gender: string)

  /** A label ending in "ες" is a feminine plural whatever gender was given,
      else one ending in 'ά' a neuter plural, else a singular of the given
      gender. The empty label fails on its last character. */
  function NumberGender(name: string, mapped: string): (r: Result<Agreement>)
    ensures r.Err? <==> name == ""
    ensures r.Err? ==> r.error == IndexOutOfRange
    ensures r.Ok? ==> (r.value.number == "PL" <==> EndsWith(name, PluralFeminine) || name[|name| - 1] == PluralNeuter)
    ensures r.Ok? ==> r.value.number == "PL" || r.value.number == "SG"
    ensures r.Ok? && EndsWith(name, PluralFeminine) ==> r.value.gender == "FEM"
    ensures r.Ok? && !EndsWith(name, PluralFeminine) && name[|name| - 1] == PluralNeuter ==> r.value.gender == "NEUT"
    ensures r.Ok? && r.value.number == "SG" ==> r.value.gender == mapped
  {
    if EndsWith(name, PluralFeminine) then Ok(Agreement("PL", "FEM"))
    else if name == "" then Err(IndexOutOfRange)
    else if name[|name| - 1] == PluralNeuter then Ok(Agreement("PL", "NEUT"))
    else Ok(Agreement("SG", mapped))
  }

  /** A label is left as it is when it has a Latin letter, is upper case, or
      ends in one of the consonants of `IsSuffix`. */
  predicate DoNotInflect(u: CharTables, name: string)
    requires name != ""
  {
    SomeRomanChars(u, name) || IsUpperText(u, name) || IsSuffix(name[|name| - 1])
  }

  // ---------------------------------------------------------------------------
  // Slots and articles

  /** Subject slots in precedence order; the nominative needs no inflection. */
  const XSlots := [Slot("[X]", "NOM", false), Slot("[X.Nom]", "NOM", false),
                   Slot("[X.Gen]", "GEN", true), Slot("[X.Acc]", "ACC", true)]

  /** Object slots in precedence order. */
  const YSlots := [Slot("[Y]", "NOM", false), Slot("[Y.Nom]", "NOM", false),
                   Slot("[Y.Gen]", "GEN", true), Slot("[Y.Acc]", "ACC", true)]

  /** An article placeholder. `Agreeing` articles agree with the entity in
      gender, number and case; `Genitive` ones are always genitive; the
      `Feminine` one is a feminine definite article with the entity's number. */
  datatype ArticleSlot =
    | Agreeing(word: string, article: string)
    | Genitive(word: string)
    | Feminine(word: string)

  /** Article placeholders in the order they are checked; a later one present
      overrides an earlier one. */
  const XArticles := [Agreeing("[DEF;X]", "DEF"), Genitive("[DEF.Gen;X]"), Agreeing("[PREPDEF;X]", "PREPDEF")]

  const YArticles := [Agreeing("[DEF;Y]", "DEF"), Genitive("[DEF.Gen;Y]"), Agreeing("[PREPDEF;Y]", "PREPDEF"),
                      Agreeing("[INDEF;Y]", "INDEF"), Feminine("[DEF;Y.Fem]")]

  /** The article-table key of a placeholder: `ART;{kind};{gender};{number};{case}`,
      `GEN` for the genitive one, `ART;DEF;FEM;{number}` for the feminine
      one. An agreeing article with no case (no subject slot was found)
      reads the unassigned `ent_case`. */
  function ArticleKey(a: ArticleSlot, agr: Agreement, entCase: Option<string>): (r: Result<string>)
    ensures r.Err? <==> a.Agreeing? && entCase.None?
    ensures r.Err? ==> r.error == Unbound("ent_case")
  {
    match a
    case Agreeing(_, article) =>
      if entCase.None? then Err(Unbound("ent_case"))
      else Ok("ART;" + article + ";" + agr.gender + ";" + agr.number + ";" + entCase.value)
    case Genitive(_) => Ok("ART;DEF;" + agr.gender + ";" + agr.number + ";GEN")
    case Feminine(_) => Ok("ART;DEF;FEM;" + agr.number)
  }

  /** The last placeholder of the table present among the words. */
  function LastPresent(words: seq<string>, table: seq<ArticleSlot>): (r: Option<nat>)
    ensures r.Some? ==> r.value < |table| && table[r.value].word in words
    ensures r.Some? ==> forall k :: r.value < k < |table| ==> table[k].word !in words
    ensures r.None? ==> forall k :: 0 <= k < |table| ==> table[k].word !in words
    decreases |table|
  {
    if |table| == 0 then None
    else if table[|table| - 1].word in words then Some(|table| - 1)
    else LastPresent(words, table[..|table| - 1])
  }

  /** Every placeholder present has a key, and the key is in the table. */
  predicate Resolves(words: seq<string>, table: seq<ArticleSlot>, articles: map<string, string>,
                     agr: Agreement, entCase: Option<string>)
  {
    forall k :: 0 <= k < |table| && table[k].word in words ==>
      ArticleKey(table[k], agr, entCase).Ok? && ArticleKey(table[k], agr, entCase).value in articles
  }

  /** One article check: a placeholder present is looked up and replaces
      the earlier choice; an absent one leaves it. */
  function ArticleStep(words: seq<string>, a: ArticleSlot, articles: map<string, string>,
                       agr: Agreement, entCase: Option<string>, earlier: Option<(nat, string)>): Result<Option<(nat, string)>>
  {
    if a.word !in words then Ok(earlier)
    else
      var key :- ArticleKey(a, agr, entCase);
      if key !in articles then Err(MissingKey(key))
      else Ok(Some((IndexOf(words, a.word), articles[key])))
  }

  /** The article checks in order: each placeholder present is looked up, so
      any one of them can fail; the last one present decides the position
      and the form. */
  function ArticleChoice(words: seq<string>, table: seq<ArticleSlot>, articles: map<string, string>,
                         agr: Agreement, entCase: Option<string>): (r: Result<Option<(nat, string)>>)
    ensures r.Ok? && r.value.Some? ==> r.value.value.0 < |words|
    decreases |table|
  {
    if |table| == 0 then Ok(None)
    else
      var earlier :- ArticleChoice(words, table[..|table| - 1], articles, agr, entCase);
      ArticleStep(words, table[|table| - 1], articles, agr, entCase, earlier)
  }

  /** The checks succeed exactly when every placeholder present resolves. */
  lemma {:induction false} ArticleChoiceResolves(words: seq<string>, table: seq<ArticleSlot>, articles: map<string, string>,
                                                 agr: Agreement, entCase: Option<string>)
    ensures ArticleChoice(words, table, articles, agr, entCase).Ok? <==> Resolves(words, table, articles, agr, entCase)
    decreases |table|
  {
    if |table| > 0 {
      var init := table[..|table| - 1];
      var a := table[|table| - 1];
      assert forall k :: 0 <= k < |init| ==> init[k] == table[k];
      ArticleChoiceResolves(words, init, articles, agr, entCase);
      assert Resolves(words, table, articles, agr, entCase)
         <==> Resolves(words, init, articles, agr, entCase)
              && (a.word in words ==> ArticleKey(a, agr, entCase).Ok? && ArticleKey(a, agr, entCase).value in articles);
    }
  }

  /** When the checks succeed, the last placeholder present decides the
      position and the form, and there is a choice exactly when some
      placeholder is present. */
  lemma {:induction false} ArticleChoiceLastWins(words: seq<string>, table: seq<ArticleSlot>, articles: map<string, string>,
                                                 agr: Agreement, entCase: Option<string>)
    ensures var r := ArticleChoice(words, table, articles, agr, entCase);
            && (r.Ok? ==> (r.value.None? <==> LastPresent(words, table).None?))
            && (r.Ok? && r.value.Some? ==>
                  var a := table[LastPresent(words, table).value];
                  && r.value.value.0 == IndexOf(words, a.word)
                  && ArticleKey(a, agr, entCase).Ok? && ArticleKey(a, agr, entCase).value in articles
                  && r.value.value.1 == articles[ArticleKey(a, agr, entCase).value])
    decreases |table|
  {
    if |table| > 0 {
      var init := table[..|table| - 1];
      var a := table[|table| - 1];
      ArticleChoiceLastWins(words, init, articles, agr, entCase);
      if a.word in words {
        assert LastPresent(words, table) == Some(|table| - 1);
      } else {
        assert LastPresent(words, table) == LastPresent(words, init);
      }
    }
  }

  /** The checks up to `n + 1` are those up to `n` followed by check `n`. */
  lemma ArticleChoiceSnoc(words: seq<string>, table: seq<ArticleSlot>, n: nat,
                          articles: map<string, string>, agr: Agreement, entCase: Option<string>)
    requires n < |table|
    ensures var prev := ArticleChoice(words, table[..n], articles, agr, entCase);
            ArticleChoice(words, table[..n + 1], articles, agr, entCase)
              == if prev.Err? then Err(prev.error) else ArticleStep(words, table[n], articles, agr, entCase, prev.value)
  {
    assert table[..n + 1][..n] == table[..n];
  }

  /** The chosen article word becomes the article, or `''` when articles are
      disabled; no other word changes. */
  function ApplyArticle(words: seq<string>, choice: Option<(nat, string)>, disable: bool): (r: seq<string>)
    requires choice.Some? ==> choice.value.0 < |words|
    ensures |r| == |words|
    ensures choice.None? ==> r == words
    ensures choice.Some? ==> r[choice.value.0] == (if disable then "" else choice.value.1)
    ensures forall j :: 0 <= j < |words| && (choice.None? || j != choice.value.0) ==> r[j] == words[j]
  {
    match choice
    case None => words
    case Some((at, art)) => words[at := if disable then "" else art]
  }

  // ---------------------------------------------------------------------------
  // fill_x and fill_y

  /** The article stage: the lookups, then the one replacement. */
  function ArticleStage(words: seq<string>, table: seq<ArticleSlot>, articles: map<string, string>,
                        agr: Agreement, entCase: Option<string>, disable: bool): Result<seq<string>>
  {
    var choice :- ArticleChoice(words, table, articles, agr, entCase);
    Ok(ApplyArticle(words, choice, disable))
  }

  /** The subject slot stage: the words, the label form and the case, which
      is unassigned when no subject slot is present. */
  function SubjectSlot(words: seq<string>, name: string, number: string, dni: bool,
                       inflect: Inflector): Result<(seq<string>, string, Option<string>)>
  {
    var placed :- PlaceSlot(words, XSlots, name, number, dni, inflect, Language, None);
    match placed
    case None => Ok((words, name, None))
    case Some(p) => Ok((p.words, p.name, Some(p.slot.caseTag)))
  }

  /** The object slot stage; without an object slot the position `i` is read
      unassigned. */
  function ObjectSlot(words: seq<string>, name: string, number: string, dni: bool,
                      inflect: Inflector, masks: Option<string>): Result<Placed>
  {
    var placed :- PlaceSlot(words, YSlots, name, number, dni, inflect, Language, masks);
    if placed.None? then Err(Unbound("i")) else Ok(placed.value)
  }

  /** `PromptEL.fill_x` as a composition of its stages. */
  function RenderX(env: Env, settings: Settings, articles: map<string, string>,
                   prompt: string, name: string, gender: string): Result<Rendered>
  {
    var mapped :- GenderMap(gender);
    var agr :- NumberGender(name, mapped);
    var dni := DoNotInflect(env.chars, name) || 'x' in settings.disableInflection;
    var subject :- SubjectSlot(Split(prompt, ' '), name, agr.number, dni, env.inflect);
    var words :- ArticleStage(subject.0, XArticles, articles, agr, subject.2, settings.disableArticle);
    Ok(Rendered(Join(" ", words), subject.1))
  }

  /** `PromptEL.fill_y` as a composition of its stages. */
  function RenderY(env: Env, settings: Settings, articles: map<string, string>,
                   prompt: string, name: string, gender: string, numMask: int, maskSym: string): Result<Rendered>
  {
    var mapped :- GenderMap(gender);
    var agr :- NumberGender(name, mapped);
    var dni := DoNotInflect(env.chars, name) || 'y' in settings.disableInflection;
    var masks := if numMask <= 0 then None else Some(MaskRun(maskSym, numMask));
    var p :- ObjectSlot(Split(prompt, ' '), name, agr.number, dni, env.inflect, masks);
    var words :- ArticleStage(p.words, YArticles, articles, agr, Some(p.slot.caseTag), settings.disableArticle);
    Ok(Rendered(Join(" ", words), p.name))
  }

  // ---------------------------------------------------------------------------
  // What the renderings promise

  /** With no subject slot and no subject article, `fill_x` gives the
      template back unchanged: splitting on spaces and joining is the
      identity. */
  lemma RenderXWithoutSlots(env: Env, settings: Settings, articles: map<string, string>,
                            prompt: string, name: string, gender: string)
    requires GenderMap(gender).Ok? && name != ""
    requires forall k :: 0 <= k < |XSlots| ==> XSlots[k].word !in Split(prompt, ' ')
    requires forall k :: 0 <= k < |XArticles| ==> XArticles[k].word !in Split(prompt, ' ')
    ensures RenderX(env, settings, articles, prompt, name, gender) == Ok(Rendered(prompt, name))
  {
    var words := Split(prompt, ' ');
    assert FirstSlot(words, XSlots) == None;
    assert LastPresent(words, XArticles) == None;
    ArticleChoiceResolves(words, XArticles, articles, NumberGender(name, GenderMap(gender).value).value, None);
    ArticleChoiceLastWins(words, XArticles, articles, NumberGender(name, GenderMap(gender).value).value, None);
    JoinSplit(prompt, ' ');
  }

  /** Without an object slot, `fill_y` fails on the unassigned position. */
  lemma RenderYWithoutSlot(env: Env, settings: Settings, articles: map<string, string>,
                           prompt: string, name: string, gender: string, numMask: int, maskSym: string)
    requires GenderMap(gender).Ok? && name != ""
    requires forall k :: 0 <= k < |YSlots| ==> YSlots[k].word !in Split(prompt, ' ')
    ensures RenderY(env, settings, articles, prompt, name, gender, numMask, maskSym) == Err(Unbound("i"))
  {
    assert FirstSlot(Split(prompt, ' '), YSlots) == None;
  }

  /** When the label is not to be inflected, `fill_x` never consults the
      inflection engine and returns the label unchanged. */
  lemma RenderXInflectionOff(env: Env, other: Inflector, settings: Settings, articles: map<string, string>,
                             prompt: string, name: string, gender: string)
    requires name != ""
    requires DoNotInflect(env.chars, name) || 'x' in settings.disableInflection
    ensures RenderX(env, settings, articles, prompt, name, gender)
         == RenderX(Env(other, env.chars), settings, articles, prompt, name, gender)
    ensures RenderX(env, settings, articles, prompt, name, gender).Ok? ==>
              RenderX(env, settings, articles, prompt, name, gender).value.name == name
  {
    var mapped := GenderMap(gender);
    if mapped.Ok? {
      var agr := NumberGender(name, mapped.value).value;
      SubjectSlotKeepsForm(Split(prompt, ' '), name, agr.number, env.inflect, other);
    }
  }

  /** The subject slot stage, when the label is not to be inflected. */
  lemma SubjectSlotKeepsForm(words: seq<string>, name: string, number: string, inflect: Inflector, other: Inflector)
    ensures SubjectSlot(words, name, number, true, inflect) == SubjectSlot(words, name, number, true, other)
    ensures SubjectSlot(words, name, number, true, inflect).Ok? ==> SubjectSlot(words, name, number, true, inflect).value.1 == name
  {
    assert PlaceSlot(words, XSlots, name, number, true, inflect, Language, None)
        == PlaceSlot(words, XSlots, name, number, true, other, Language, None);
  }

  /** When the label is not to be inflected, `fill_y` never consults the
      inflection engine and returns the label unchanged. */
  lemma RenderYInflectionOff(env: Env, other: Inflector, settings: Settings, articles: map<string, string>,
                             prompt: string, name: string, gender: string, numMask: int, maskSym: string)
    requires name != ""
    requires DoNotInflect(env.chars, name) || 'y' in settings.disableInflection
    ensures RenderY(env, settings, articles, prompt, name, gender, numMask, maskSym)
         == RenderY(Env(other, env.chars), settings, articles, prompt, name, gender, numMask, maskSym)
    ensures RenderY(env, settings, articles, prompt, name, gender, numMask, maskSym).Ok? ==>
              RenderY(env, settings, articles, prompt, name, gender, numMask, maskSym).value.name == name
  {
    var mapped := GenderMap(gender);
    if mapped.Ok? {
      var agr := NumberGender(name, mapped.value).value;
      var masks := if numMask <= 0 then None else Some(MaskRun(maskSym, numMask));
      ObjectSlotKeepsForm(Split(prompt, ' '), name, agr.number, env.inflect, other, masks);
    }
  }

  /** The object slot stage, when the label is not to be inflected. */
  lemma ObjectSlotKeepsForm(words: seq<string>, name: string, number: string, inflect: Inflector, other: Inflector,
                            masks: Option<string>)
    ensures ObjectSlot(words, name, number, true, inflect, masks) == ObjectSlot(words, name, number, true, other, masks)
    ensures ObjectSlot(words, name, number, true, inflect, masks).Ok? ==> ObjectSlot(words, name, number, true, inflect, masks).value.name == name
  {
    assert PlaceSlot(words, YSlots, name, number, true, inflect, Language, masks)
        == PlaceSlot(words, YSlots, name, number, true, other, Language, masks);
  }

  /** When the label may be inflected and the first subject slot present is
      oblique, `fill_x` returns the engine's first form for that case. */
  lemma RenderXInflects(env: Env, settings: Settings, articles: map<string, string>,
                        prompt: string, name: string, gender: string, k: nat)
    requires name != "" && GenderMap(gender).Ok?
    requires !DoNotInflect(env.chars, name) && 'x' !in settings.disableInflection
    requires FirstSlot(Split(prompt, ' '), XSlots) == Some(k) && XSlots[k].inflected
    requires RenderX(env, settings, articles, prompt, name, gender).Ok?
    ensures var number := NumberGender(name, GenderMap(gender).value).value.number;
            var forms := env.inflect(name, NounFeatures(XSlots[k].caseTag, number), Language);
            |forms| > 0 && RenderX(env, settings, articles, prompt, name, gender).value.name == forms[0]
  {
  }

  /** When the label may be inflected and the first object slot present is
      oblique, `fill_y` returns the engine's first form for that case, with
      or without masks in the slot. */
  lemma RenderYInflects(env: Env, settings: Settings, articles: map<string, string>,
                        prompt: string, name: string, gender: string, numMask: int, maskSym: string, k: nat)
    requires name != "" && GenderMap(gender).Ok?
    requires !DoNotInflect(env.chars, name) && 'y' !in settings.disableInflection
    requires FirstSlot(Split(prompt, ' '), YSlots) == Some(k) && YSlots[k].inflected
    requires RenderY(env, settings, articles, prompt, name, gender, numMask, maskSym).Ok?
    ensures var number := NumberGender(name, GenderMap(gender).value).value.number;
            var forms := env.inflect(name, NounFeatures(YSlots[k].caseTag, number), Language);
            |forms| > 0 && RenderY(env, settings, articles, prompt, name, gender, numMask, maskSym).value.name == forms[0]
  {
  }

  /** Turning articles off changes no failure: every article placeholder
      present is still looked up. The label returned is the same. */
  lemma DisableArticleKeepsFailuresX(env: Env, settings: Settings, articles: map<string, string>,
                                     prompt: string, name: string, gender: string)
    ensures var on := RenderX(env, settings, articles, prompt, name, gender);
            var off := RenderX(env, settings.(disableArticle := !settings.disableArticle), articles, prompt, name, gender);
            && (on.Err? <==> off.Err?)
            && (on.Err? ==> on.error == off.error)
            && (on.Ok? ==> on.value.name == off.value.name)
  {
    var mapped := GenderMap(gender);
    if mapped.Ok? {
      var agr := NumberGender(name, mapped.value);
      if agr.Ok? {
        var dni := DoNotInflect(env.chars, name) || 'x' in settings.disableInflection;
        var subject := SubjectSlot(Split(prompt, ' '), name, agr.value.number, dni, env.inflect);
        if subject.Ok? {
          ArticleStageIgnoresDisable(subject.value.0, XArticles, articles, agr.value, subject.value.2, settings.disableArticle);
        }
      }
    }
  }

  /** Whether the article stage fails, and how, does not depend on whether
      articles are disabled. */
  lemma ArticleStageIgnoresDisable(words: seq<string>, table: seq<ArticleSlot>, articles: map<string, string>,
                                   agr: Agreement, entCase: Option<string>, disable: bool)
    ensures var on := ArticleStage(words, table, articles, agr, entCase, disable);
            var off := ArticleStage(words, table, articles, agr, entCase, !disable);
            && (on.Err? <==> off.Err?)
            && (on.Err? ==> on.error == off.error)
  {
  }

  /** Turning articles off changes no failure of `fill_y` either. */
  lemma DisableArticleKeepsFailuresY(env: Env, settings: Settings, articles: map<string, string>,
                                     prompt: string, name: string, gender: string, numMask: int, maskSym: string)
    ensures var on := RenderY(env, settings, articles, prompt, name, gender, numMask, maskSym);
            var off := RenderY(env, settings.(disableArticle := !settings.disableArticle), articles,
                               prompt, name, gender, numMask, maskSym);
            && (on.Err? <==> off.Err?)
            && (on.Err? ==> on.error == off.error)
            && (on.Ok? ==> on.value.name == off.value.name)
  {
    var mapped := GenderMap(gender);
    if mapped.Ok? {
      var agr := NumberGender(name, mapped.value);
      if agr.Ok? {
        var dni := DoNotInflect(env.chars, name) || 'y' in settings.disableInflection;
        var masks := if numMask <= 0 then None else Some(MaskRun(maskSym, numMask));
        var p := ObjectSlot(Split(prompt, ' '), name, agr.value.number, dni, env.inflect, masks);
        if p.Ok? {
          ArticleStageIgnoresDisable(p.value.words, YArticles, articles, agr.value, Some(p.value.slot.caseTag), settings.disableArticle);
        }
      }
    }
  }

  // ---------------------------------------------------------------------------
  // The methods, step by step as the source runs them

  /** The subject slot chain of `PromptEL.fill_x`. */
  method PlaceX(cache: InflectCache, words: seq<string>, name: string, number: string, doNotInflect: bool)
    returns (r: Result<(seq<string>, string, Option<string>)>)
    requires cache.Valid()
    modifies cache
    ensures cache.Valid()
    ensures r == SubjectSlot(words, name, number, doNotInflect, cache.inflect)
  {
    var slot := FirstSlot(words, XSlots);
    assert XSlots[1..] == [XSlots[1], XSlots[2], XSlots[3]];
    assert XSlots[1..][1..] == [XSlots[2], XSlots[3]];
    assert XSlots[1..][1..][1..] == [XSlots[3]];
    if "[X]" in words {
      assert slot == Some(0);
      var i := IndexOf(words, "[X]");
      return Ok((words[i := name], name, Some("NOM")));
    } else if "[X.Nom]" in words {
      assert slot == Some(1);
      var i := IndexOf(words, "[X.Nom]");
      return Ok((words[i := name], name, Some("NOM")));
    } else if "[X.Gen]" in words {
      assert slot == Some(2);
      var i := IndexOf(words, "[X.Gen]");
      var form := name;
      if !doNotInflect {
        assert NounFeatures("GEN", number) == "N;GEN;" + number;
        var forms := cache.Inflect(name, "N;GEN;" + number, Language);
        if |forms| == 0 {
          return Err(IndexOutOfRange);
        }
        form := forms[0];
      }
      return Ok((words[i := form], form, Some("GEN")));
    } else if "[X.Acc]" in words {
      assert slot == Some(3);
      var i := IndexOf(words, "[X.Acc]");
      var form := name;
      if !doNotInflect {
        assert NounFeatures("ACC", number) == "N;ACC;" + number;
        var forms := cache.Inflect(name, "N;ACC;" + number, Language);
        if |forms| == 0 {
          return Err(IndexOutOfRange);
        }
        form := forms[0];
      }
      return Ok((words[i := form], form, Some("ACC")));
    }
    assert slot == None;
    return Ok((words, name, None));
  }

  /** A failed lookup among the first article checks fails the whole stage. */
  lemma {:induction false} ArticleChoicePrefix(words: seq<string>, table: seq<ArticleSlot>, n: nat,
                                               articles: map<string, string>, agr: Agreement, entCase: Option<string>)
    requires n <= |table|
    requires ArticleChoice(words, table[..n], articles, agr, entCase).Err?
    ensures ArticleChoice(words, table, articles, agr, entCase) == ArticleChoice(words, table[..n], articles, agr, entCase)
    decreases |table|
  {
    if n < |table| {
      assert table[..|table| - 1][..n] == table[..n];
      ArticleChoicePrefix(words, table[..|table| - 1], n, articles, agr, entCase);
    } else {
      assert table[..n] == table;
    }
  }

  /** An article check that agrees with the entity: `ART;{kind};{gender};{number};{case}`. */
  method AgreeingArticle(words: seq<string>, word: string, kind: string, articles: map<string, string>,
                         agr: Agreement, entCase: Option<string>, earlier: Option<(nat, string)>)
    returns (r: Result<Option<(nat, string)>>)
    ensures r == ArticleStep(words, Agreeing(word, kind), articles, agr, entCase, earlier)
  {
    if word !in words {
      return Ok(earlier);
    }
    var i := IndexOf(words, word);
    if entCase.None? {
      return Err(Unbound("ent_case"));
    }
    var key := "ART;" + kind + ";" + agr.gender + ";" + agr.number + ";" + entCase.value;
    if key !in articles {
      return Err(MissingKey(key));
    }
    return Ok(Some((i, articles[key])));
  }

  /** The genitive article check: `ART;DEF;{gender};{number};GEN`. */
  method GenitiveArticle(words: seq<string>, word: string, articles: map<string, string>,
                         agr: Agreement, earlier: Option<(nat, string)>)
    returns (r: Result<Option<(nat, string)>>)
    ensures forall entCase :: r == ArticleStep(words, Genitive(word), articles, agr, entCase, earlier)
  {
    if word !in words {
      return Ok(earlier);
    }
    var i := IndexOf(words, word);
    var key := "ART;DEF;" + agr.gender + ";" + agr.number + ";GEN";
    if key !in articles {
      return Err(MissingKey(key));
    }
    return Ok(Some((i, articles[key])));
  }

  /** The feminine article check: `ART;DEF;FEM;{number}`. */
  method FeminineArticle(words: seq<string>, word: string, articles: map<string, string>,
                         agr: Agreement, earlier: Option<(nat, string)>)
    returns (r: Result<Option<(nat, string)>>)
    ensures forall entCase :: r == ArticleStep(words, Feminine(word), articles, agr, entCase, earlier)
  {
    if word !in words {
      return Ok(earlier);
    }
    var i := IndexOf(words, word);
    var key := "ART;DEF;FEM;" + agr.number;
    if key !in articles {
      return Err(MissingKey(key));
    }
    return Ok(Some((i, articles[key])));
  }

  /** The article checks of `PromptEL.fill_x`, then the one replacement. */
  method ArticlesX(words: seq<string>, articles: map<string, string>, agr: Agreement,
                   entCase: Option<string>, disable: bool) returns (r: Result<seq<string>>)
    ensures r == ArticleStage(words, XArticles, articles, agr, entCase, disable)
  {
    assert XArticles[..0] == [] && XArticles[..3] == XArticles;
    ArticleChoiceSnoc(words, XArticles, 0, articles, agr, entCase);
    ArticleChoiceSnoc(words, XArticles, 1, articles, agr, entCase);
    ArticleChoiceSnoc(words, XArticles, 2, articles, agr, entCase);
    var def := AgreeingArticle(words, "[DEF;X]", "DEF", articles, agr, entCase, None);
    if def.Err? {
      ArticleChoicePrefix(words, XArticles, 1, articles, agr, entCase);
      return Err(def.error);
    }
    var gen := GenitiveArticle(words, "[DEF.Gen;X]", articles, agr, def.value);
    if gen.Err? {
      ArticleChoicePrefix(words, XArticles, 2, articles, agr, entCase);
      return Err(gen.error);
    }
    var prep := AgreeingArticle(words, "[PREPDEF;X]", "PREPDEF", articles, agr, entCase, gen.value);
    if prep.Err? {
      return Err(prep.error);
    }
    return Ok(ApplyArticle(words, prep.value, disable));
  }

  /** The number and gender steps that open `fill_x` and `fill_y`. */
  method Agree(name: string, mapped: string) returns (r: Result<Agreement>)
    ensures r == NumberGender(name, mapped)
  {
    var genderTag := mapped;
    var number := "SG";
    if Tail(name, 2) == PluralFeminine {
      number, genderTag := "PL", "FEM";
    } else if name == "" {
      return Err(IndexOutOfRange);
    } else if name[|name| - 1] == PluralNeuter {
      number, genderTag := "PL", "NEUT";
    }
    return Ok(Agreement(number, genderTag));
  }

  /** The do-not-inflect test of `fill_x` and `fill_y`, through the
      `latin_letters` memo. */
  method KeepsForm(latin: LatinMemo, name: string) returns (b: bool)
    requires latin.Valid() && name != ""
    modifies latin
    ensures latin.Valid()
    ensures b == DoNotInflect(latin.tables, name)
  {
    var roman := latin.SomeRoman(name);
    b := roman || IsUpperText(latin.tables, name) || IsSuffix(name[|name| - 1]);
  }

  /** `PromptEL.fill_x`, through the `latin_letters` memo and the inflection
      cache. */
  method FillX(latin: LatinMemo, cache: InflectCache, settings: Settings, articles: map<string, string>,
               prompt: string, name: string, gender: string) returns (r: Result<Rendered>)
    requires latin.Valid() && cache.Valid()
    modifies latin, cache
    ensures latin.Valid() && cache.Valid()
    ensures r == RenderX(Env(cache.inflect, latin.tables), settings, articles, prompt, name, gender)
  {
    var mapped := GenderMap(gender);
    if mapped.Err? {
      return Err(mapped.error);
    }
    var agreement := Agree(name, mapped.value);
    if agreement.Err? {
      return Err(agreement.error);
    }
    var number, genderTag := agreement.value.number, agreement.value.gender;
    var doNotInflect := KeepsForm(latin, name);
    if 'x' in settings.disableInflection {
      doNotInflect := true;
    }
    var subject := PlaceX(cache, Split(prompt, ' '), name, number, doNotInflect);
    if subject.Err? {
      return Err(subject.error);
    }
    var words := ArticlesX(subject.value.0, articles, Agreement(number, genderTag), subject.value.2,
                           settings.disableArticle);
    if words.Err? {
      return Err(words.error);
    }
    return Ok(Rendered(Join(" ", words.value), subject.value.1));
  }

  /** The object slot chain of `PromptEL.fill_y`: the slot found decides the
      case and maybe inflects the label, then the slot word becomes the masks
      or the label. */
  method PlaceY(cache: InflectCache, words: seq<string>, name: string, number: string, doNotInflect: bool,
                masks: Option<string>) returns (r: Result<Placed>)
    requires cache.Valid()
    modifies cache
    ensures cache.Valid()
    ensures r == ObjectSlot(words, name, number, doNotInflect, cache.inflect, masks)
  {
    ghost var slot := FirstSlot(words, YSlots);
    assert YSlots[1..] == [YSlots[1], YSlots[2], YSlots[3]];
    assert YSlots[1..][1..] == [YSlots[2], YSlots[3]];
    assert YSlots[1..][1..][1..] == [YSlots[3]];
    var at: Option<nat> := None;
    var form := name;
    var matched := YSlots[0];
    if "[Y]" in words {
      assert slot == Some(0);
      at := Some(IndexOf(words, "[Y]"));
      matched := YSlots[0];
    } else if "[Y.Nom]" in words {
      assert slot == Some(1);
      at := Some(IndexOf(words, "[Y.Nom]"));
      matched := YSlots[1];
    } else if "[Y.Gen]" in words {
      assert slot == Some(2);
      at := Some(IndexOf(words, "[Y.Gen]"));
      if !doNotInflect {
        assert NounFeatures("GEN", number) == "N;GEN;" + number;
        var forms := cache.Inflect(name, "N;GEN;" + number, Language);
        if |forms| == 0 {
          return Err(IndexOutOfRange);
        }
        form := forms[0];
      }
      matched := YSlots[2];
    } else if "[Y.Acc]" in words {
      assert slot == Some(3);
      at := Some(IndexOf(words, "[Y.Acc]"));
      if !doNotInflect {
        assert NounFeatures("ACC", number) == "N;ACC;" + number;
        var forms := cache.Inflect(name, "N;ACC;" + number, Language);
        if |forms| == 0 {
          return Err(IndexOutOfRange);
        }
        form := forms[0];
      }
      matched := YSlots[3];
    }
    if at.None? {
      return Err(Unbound("i"));
    }
    var filled := words[at.value := if masks.Some? then masks.value else form];
    return Ok(Placed(filled, form, matched, at.value));
  }

  /** The article checks of `PromptEL.fill_y`, then the one replacement. */
  method ArticlesY(words: seq<string>, articles: map<string, string>, agr: Agreement,
                   entCase: string, disable: bool) returns (r: Result<seq<string>>)
    ensures r == ArticleStage(words, YArticles, articles, agr, Some(entCase), disable)
  {
    var c := Some(entCase);
    assert YArticles[..0] == [] && YArticles[..5] == YArticles;
    var def := AgreeingArticle(words, "[DEF;Y]", "DEF", articles, agr, c, None);
    ArticleChoiceSnoc(words, YArticles, 0, articles, agr, c);
    if def.Err? {
      ArticleChoicePrefix(words, YArticles, 1, articles, agr, c);
      return Err(def.error);
    }
    var gen := GenitiveArticle(words, "[DEF.Gen;Y]", articles, agr, def.value);
    ArticleChoiceSnoc(words, YArticles, 1, articles, agr, c);
    if gen.Err? {
      ArticleChoicePrefix(words, YArticles, 2, articles, agr, c);
      return Err(gen.error);
    }
    var prep := AgreeingArticle(words, "[PREPDEF;Y]", "PREPDEF", articles, agr, c, gen.value);
    ArticleChoiceSnoc(words, YArticles, 2, articles, agr, c);
    if prep.Err? {
      ArticleChoicePrefix(words, YArticles, 3, articles, agr, c);
      return Err(prep.error);
    }
    var indef := AgreeingArticle(words, "[INDEF;Y]", "INDEF", articles, agr, c, prep.value);
    ArticleChoiceSnoc(words, YArticles, 3, articles, agr, c);
    if indef.Err? {
      ArticleChoicePrefix(words, YArticles, 4, articles, agr, c);
      return Err(indef.error);
    }
    var fem := FeminineArticle(words, "[DEF;Y.Fem]", articles, agr, indef.value);
    ArticleChoiceSnoc(words, YArticles, 4, articles, agr, c);
    if fem.Err? {
      return Err(fem.error);
    }
    return Ok(ApplyArticle(words, fem.value, disable));
  }

  /** `PromptEL.fill_y`, through the `latin_letters` memo and the inflection
      cache. */
  method FillY(latin: LatinMemo, cache: InflectCache, settings: Settings, articles: map<string, string>,
               prompt: string, name: string, gender: string, numMask: int, maskSym: string)
    returns (r: Result<Rendered>)
    requires latin.Valid() && cache.Valid()
    modifies latin, cache
    ensures latin.Valid() && cache.Valid()
    ensures r == RenderY(Env(cache.inflect, latin.tables), settings, articles, prompt, name, gender, numMask, maskSym)
  {
    var mapped := GenderMap(gender);
    if mapped.Err? {
      return Err(mapped.error);
    }
    var agreement := Agree(name, mapped.value);
    if agreement.Err? {
      return Err(agreement.error);
    }
    var number, genderTag := agreement.value.number, agreement.value.gender;
    var maskRun := MaskRun(maskSym, numMask);
    var doNotInflect := KeepsForm(latin, name);
    if 'y' in settings.disableInflection {
      doNotInflect := true;
    }
    var placed := PlaceY(cache, Split(prompt, ' '), name, number, doNotInflect,
                         if numMask <= 0 then None else Some(maskRun));
    if placed.Err? {
      return Err(placed.error);
    }
    var words := ArticlesY(placed.value.words, articles, Agreement(number, genderTag),
                           placed.value.slot.caseTag, settings.disableArticle);
    if words.Err? {
      return Err(words.error);
    }
    return Ok(Rendered(Join(" ", words.value), placed.value.name));
  }
}
