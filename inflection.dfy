/** The inflection lookup (scripts/prompt.py:7-13): an external morphology
    engine maps (lemma, feature string, language) to candidate forms; the
    scripts memoise it and always take the first candidate. */
module Inflection {
  import opened Wrappers

  /** `unimorph_inflect.inflect(lemma, features, language=...)`, left abstract. */
  type Inflector = (string, string, string) -> seq<string>

  /** `cache_inflect(lemma, features, language=lang)[0]`: the first candidate,
      or an index error when the engine offers none. */
  function FirstForm(inflect: Inflector, base: string, features: string, language: string): (r: Result<string>)
    ensures r.Ok? <==> |inflect(base, features, language)| > 0
    ensures r.Ok? ==> r.value == inflect(base, features, language)[0]
  {
    var forms := inflect(base, features, language);
    if |forms| == 0 then Err(IndexOutOfRange) else Ok(forms[0])
  }

  /** The unbounded `functools.lru_cache` around the engine. */
  class InflectCache {
    const inflect: Inflector
    var memo: map<(string, string, string), seq<string>>

    ghost predicate Valid()
      reads this
    {
      forall q :: q in memo ==> memo[q] == inflect(q.0, q.1, q.2)
    }

    constructor (inflect: Inflector)
      ensures Valid() && this.inflect == inflect && memo == map[]
    {
      this.inflect := inflect;
      memo := map[];
    }

    /** `cache_inflect`: a hit returns exactly what a recomputation would. */
    method Inflect(base: string, features: string, language: string) returns (forms: seq<string>)
      requires Valid()
      modifies this
      ensures Valid()
      ensures forms == inflect(base, features, language)
      ensures memo == old(memo)[(base, features, language) := forms]
    {
      var q := (base, features, language);
      if q in memo {
        forms := memo[q];
      } else {
        forms := inflect(base, features, language);
        memo := memo[q := forms];
      }
    }
  }

  /** Asking the cache twice for the same triple gives the same forms, and
      both equal the engine's answer. */
  method InflectTwice(cache: InflectCache, base: string, features: string, language: string)
    returns (first: seq<string>, second: seq<string>)
    requires cache.Valid()
    modifies cache
    ensures cache.Valid()
    ensures first == second == cache.inflect(base, features, language)
  {
    first := cache.Inflect(base, features, language);
    second := cache.Inflect(base, features, language);
  }
}
