/** `Prompt.from_lang` (scripts/prompt.py:54-60) and the renderer it returns:
    the Greek variant for `el`, the Russian one for `ru`, the default
    substitution for every other language code. */
module Render {
  import opened Wrappers
  import opened Script
  import opened Inflection
  import Prompt
  import PromptEL
  import PromptRU

  /** A constructed renderer. The Greek one carries the article table its
      constructor loaded. */
  datatype Renderer =
    | Plain(settings: Prompt.Settings)
    | Greek(settings: Prompt.Settings, articles: map<string, string>)
    | Russian(settings: Prompt.Settings)

  /** `Prompt.from_lang(lang, ...)`; `articleLines` are the lines of the Greek
      article file, read only when the Greek variant is built. Only that
      construction can fail, on a line without a tab. */
  function FromLang(lang: string, settings: Prompt.Settings, articleLines: seq<string>): (r: Result<Renderer>)
    ensures r.Err? ==> lang == "el"
    ensures r.Ok? ==> r.value.settings == settings
    ensures r.Ok? ==> (r.value.Greek? <==> lang == "el") && (r.value.Russian? <==> lang == "ru")
    ensures lang == "el" ==>
              (r.Ok? <==> forall j :: 0 <= j < |articleLines| ==> PromptEL.ArticleLine(articleLines[j]).Ok?)
    ensures r.Ok? && r.value.Greek? ==> Ok(r.value.articles) == PromptEL.ArticleTable(articleLines)
  {
    if lang == "el" then
      var articles :- PromptEL.ArticleTable(articleLines);
      Ok(Greek(settings, articles))
    else if lang == "ru" then Ok(Russian(settings))
    else Ok(Plain(settings))
  }

  /** `fill_x` of whichever variant was built. */
  function FillX(r: Renderer, env: Prompt.Env, prompt: string, name: string, gender: string): Result<Prompt.Rendered> {
    match r
    case Plain(_) => Ok(Prompt.FillX(prompt, name))
    case Greek(settings, articles) => PromptEL.RenderX(env, settings, articles, prompt, name, gender)
    case Russian(settings) => PromptRU.RenderX(env, settings, prompt, name, gender)
  }

  /** `fill_y` of whichever variant was built. */
  function FillY(r: Renderer, env: Prompt.Env, prompt: string, name: string, gender: string,
                 numMask: int, maskSym: string): Result<Prompt.Rendered>
  {
    match r
    case Plain(_) => Ok(Prompt.FillY(prompt, name, numMask, maskSym))
    case Greek(settings, articles) => PromptEL.RenderY(env, settings, articles, prompt, name, gender, numMask, maskSym)
    case Russian(settings) => PromptRU.RenderY(env, settings, prompt, name, gender, numMask, maskSym)
  }

  /** The default variant never fails and ignores the gender: every language
      code other than `el` and `ru` renders by plain substitution. */
  lemma OtherLanguagesSubstitute(lang: string, settings: Prompt.Settings, articleLines: seq<string>,
                                 env: Prompt.Env, prompt: string, name: string, gender: string,
                                 numMask: int, maskSym: string)
    requires lang != "el" && lang != "ru"
    ensures FromLang(lang, settings, articleLines).Ok?
    ensures FillX(FromLang(lang, settings, articleLines).value, env, prompt, name, gender)
         == Ok(Prompt.FillX(prompt, name))
    ensures FillY(FromLang(lang, settings, articleLines).value, env, prompt, name, gender, numMask, maskSym)
         == Ok(Prompt.FillY(prompt, name, numMask, maskSym))
  {
  }

  /** With the subject's inflection disabled, no variant's `fill_x` consults
      the inflection engine, and each returns the label it was given. */
  lemma SubjectFlagKeepsLabel(r: Renderer, env: Prompt.Env, other: Inflector,
                              prompt: string, name: string, gender: string)
    requires 'x' in r.settings.disableInflection
    ensures FillX(r, env, prompt, name, gender) == FillX(r, Prompt.Env(other, env.chars), prompt, name, gender)
    ensures FillX(r, env, prompt, name, gender).Ok? ==> FillX(r, env, prompt, name, gender).value.name == name
  {
    match r
    case Plain(_) =>
    case Greek(settings, articles) =>
      if name != "" {
        PromptEL.RenderXInflectionOff(env, other, settings, articles, prompt, name, gender);
      } else {
        assert PromptEL.NumberGender(name, "MASC").Err?;
      }
    case Russian(settings) =>
      PromptRU.RenderXInflectionOff(env, other, settings, prompt, name, gender);
  }

  /** `from_lang` with the Greek constructor's loop over the article file. */
  method Build(lang: string, settings: Prompt.Settings, articleLines: seq<string>) returns (r: Result<Renderer>)
    ensures r == FromLang(lang, settings, articleLines)
  {
    if lang == "el" {
      var loaded := PromptEL.LoadArticles(articleLines);
      if loaded.Err? {
        return Err(loaded.error);
      }
      return Ok(Greek(settings, loaded.value));
    }
    if lang == "ru" {
      return Ok(Russian(settings));
    }
    return Ok(Plain(settings));
  }

  /** `prompt_model.fill_x(...)` through the memo tables. */
  method RenderSubject(r: Renderer, latin: LatinMemo, cache: InflectCache,
                       prompt: string, name: string, gender: string) returns (out: Result<Prompt.Rendered>)
    requires latin.Valid() && cache.Valid()
    modifies latin, cache
    ensures latin.Valid() && cache.Valid()
    ensures out == FillX(r, Prompt.Env(cache.inflect, latin.tables), prompt, name, gender)
  {
    match r
    case Plain(_) =>
      out := Ok(Prompt.FillX(prompt, name));
    case Greek(settings, articles) =>
      out := PromptEL.FillX(latin, cache, settings, articles, prompt, name, gender);
    case Russian(settings) =>
      out := PromptRU.FillX(latin, cache, settings, prompt, name, gender);
  }

  /** `prompt_model.fill_y(...)` through the memo tables. */
  method RenderObject(r: Renderer, latin: LatinMemo, cache: InflectCache,
                      prompt: string, name: string, gender: string, numMask: int, maskSym: string)
    returns (out: Result<Prompt.Rendered>)
    requires latin.Valid() && cache.Valid()
    modifies latin, cache
    ensures latin.Valid() && cache.Valid()
    ensures out == FillY(r, Prompt.Env(cache.inflect, latin.tables), prompt, name, gender, numMask, maskSym)
  {
    match r
    case Plain(_) =>
      out := Ok(Prompt.FillY(prompt, name, numMask, maskSym));
    case Greek(settings, articles) =>
      out := PromptEL.FillY(latin, cache, settings, articles, prompt, name, gender, numMask, maskSym);
    case Russian(settings) =>
      out := PromptRU.FillY(latin, cache, settings, prompt, name, gender, numMask, maskSym);
  }
}
