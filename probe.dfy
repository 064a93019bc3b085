/** The data handling of the probing script (scripts/probe.py): batching,
    the entity-label file, the per-relation choice of facts to probe, the
    renderings fed to the model for each fact and the per-fact scores. The
    language model itself is not modelled: which tokens it predicts is an
    input, and so is the tokenizer's unknown-token test. */
module Probe {
  import opened Wrappers
  import opened Text
  import opened Script
  import opened Inflection
  import Prompt
  import opened Render

  // ---------------------------------------------------------------------------
  // batcher (scripts/probe.py:37-39)

  function Flatten<T>(chunks: seq<seq<T>>): seq<T>
    decreases |chunks|
  {
    if |chunks| == 0 then [] else chunks[0] + Flatten(chunks[1..])
  }

  function Min(a: int, b: int): int {
    if a <= b then a else b
  }

  /** The slices `data[i:i + size]` for `i` in `0, size, 2 * size, ...`:
      none is empty, none is longer than `size`, and only the last may be
      shorter. */
  function Chunks<T>(data: seq<T>, size: nat): (r: seq<seq<T>>)
    requires size > 0
    ensures forall k :: 0 <= k < |r| ==> 0 < |r[k]| <= size
    ensures forall k :: 0 <= k < |r| - 1 ==> |r[k]| == size
    decreases |data|
  {
    if |data| == 0 then []
    else if |data| <= size then [data]
    else [data[..size]] + Chunks(data[size..], size)
  }

  /** The slices put back together are the data, in order. */
  lemma {:induction false} ChunksFlatten<T>(data: seq<T>, size: nat)
    requires size > 0
    ensures Flatten(Chunks(data, size)) == data
    decreases |data|
  {
    if |data| > size {
      ChunksFlatten(data[size..], size);
      var r := Chunks(data, size);
      assert r[1..] == Chunks(data[size..], size);
      assert data == data[..size] + data[size..];
    } else if |data| > 0 {
      assert Chunks(data, size)[1..] == [];
    }
  }

  /** Slice `k` starts at `k * size` and runs `size` further or to the end,
      and there are as many slices as `range(0, len(data), size)` has steps. */
  lemma {:induction false} ChunksAt<T>(data: seq<T>, size: nat, k: nat)
    requires size > 0 && k < |Chunks(data, size)|
    ensures k * size < |data|
    ensures Chunks(data, size)[k] == data[k * size..Min(k * size + size, |data|)]
    decreases |data|
  {
    if k > 0 {
      var rest := data[size..];
      assert Chunks(data, size)[k] == Chunks(rest, size)[k - 1];
      ChunksAt(rest, size, k - 1);
      assert (k - 1) * size + size == k * size;
      assert |rest| == |data| - size;
      assert Min((k - 1) * size + size, |rest|) + size == Min(k * size + size, |data|);
      assert rest[(k - 1) * size..Min((k - 1) * size + size, |rest|)]
          == data[k * size..Min(k * size + size, |data|)];
    }
  }

  /** `batcher(data, batch_size)`: a zero batch size is a range with step
      zero; a negative one gives no batches at all. */
  function Batches<T>(data: seq<T>, size: int): (r: Result<seq<seq<T>>>)
    ensures r.Err? <==> size == 0
    ensures r.Err? ==> r.error == InvalidArgument
    ensures size < 0 ==> r == Ok([])
    ensures size > 0 ==> r.Ok? && Flatten(r.value) == data
    ensures r.Ok? ==> forall k :: 0 <= k < |r.value| ==> 0 < |r.value[k]| <= size
    ensures r.Ok? ==> forall k :: 0 <= k < |r.value| - 1 ==> |r.value[k]| == size
  {
    if size == 0 then Err(InvalidArgument)
    else if size < 0 then Ok([])
    else
      ChunksFlatten(data, size);
      Ok(Chunks(data, size))
  }

  // ---------------------------------------------------------------------------
  // load_entity_lang (scripts/probe.py:41-50)

  predicate IsQuote(c: char) {
    c == '"'
  }

  /** One `label@lang` field: split at its last `@`, the label stripped of
      double quotes at both ends. The pair is (language, label). */
  function ParseField(field: string): (r: Result<(string, string)>)
    ensures r.Err? <==> '@' !in field
    ensures r.Err? ==> r.error == BadUnpack
  {
    var parts :- RSplitOnce(field, '@');
    Ok((parts.1, Strip(parts.0, IsQuote)))
  }

  /** Parsing `raw@lang`, where the language has no `@`, gives that language
      and the raw label without its surrounding double quotes, whatever `@`s
      the label holds. */
  lemma ParseFieldParts(raw: string, lang: string)
    requires '@' !in lang
    ensures ParseField(raw + "@" + lang) == Ok((lang, Strip(raw, IsQuote)))
  {
    var field := raw + "@" + lang;
    assert field[|raw|] == '@';
    var parts := RSplitOnce(field, '@').value;
    assert parts.1 == field[|field| - |parts.1|..] == lang;
    assert parts.0 == field[..|raw|] == raw;
  }

  /** What the defaultdict `entity2lang` holds: entity to language to label. */
  type EntityLang = map<string, map<string, string>>

  /** `entity2lang[entity]`: an entity never stored reads as no labels. */
  function Labels(table: EntityLang, entity: string): map<string, string> {
    if entity in table then table[entity] else map[]
  }

  /** The tab-separated fields of a whitespace-stripped line. */
  function Fields(line: string): (r: seq<string>)
    ensures |r| >= 1
  {
    Split(Strip(line, IsSpace), '\t')
  }

  /** Storing the label fields of one line, in order, into an entity's
      labels. */
  function StoreFields(labels: map<string, string>, fields: seq<string>): (r: Result<map<string, string>>)
    ensures r.Ok? <==> forall j :: 0 <= j < |fields| ==> '@' in fields[j]
    ensures r.Err? ==> r.error == BadUnpack
    decreases |fields|
  {
    if |fields| == 0 then Ok(labels)
    else
      var earlier :- StoreFields(labels, fields[..|fields| - 1]);
      assert forall j :: 0 <= j < |fields| - 1 ==> fields[..|fields| - 1][j] == fields[j];
      var parsed :- ParseField(fields[|fields| - 1]);
      Ok(earlier[parsed.0 := parsed.1])
  }

  /** A language none of the fields names keeps the label it had, or stays
      absent. */
  lemma {:induction false} StoreFieldsKeeps(labels: map<string, string>, fields: seq<string>, lang: string)
    requires StoreFields(labels, fields).Ok?
    requires forall j :: 0 <= j < |fields| ==> ParseField(fields[j]).value.0 != lang
    ensures lang in StoreFields(labels, fields).value <==> lang in labels
    ensures lang in labels ==> StoreFields(labels, fields).value[lang] == labels[lang]
    decreases |fields|
  {
    if |fields| > 0 {
      var init := fields[..|fields| - 1];
      assert forall j :: 0 <= j < |init| ==> init[j] == fields[j];
      StoreFieldsKeeps(labels, init, lang);
    }
  }

  /** The label stored for a language is the one of the last field in that
      language: a later field overwrites an earlier one. */
  lemma {:induction false} StoreFieldsLastWins(labels: map<string, string>, fields: seq<string>, j: nat)
    requires StoreFields(labels, fields).Ok?
    requires j < |fields|
    requires forall l :: j < l < |fields| ==> ParseField(fields[l]).value.0 != ParseField(fields[j]).value.0
    ensures var (lang, name) := ParseField(fields[j]).value;
            lang in StoreFields(labels, fields).value && StoreFields(labels, fields).value[lang] == name
    decreases |fields|
  {
    if j < |fields| - 1 {
      var init := fields[..|fields| - 1];
      assert forall l :: 0 <= l < |init| ==> init[l] == fields[l];
      StoreFieldsLastWins(labels, init, j);
    }
  }

  /** One line of the file: the first field names the entity and the others
      are stored into its labels; a line with no label field stores nothing. */
  function StoreLine(table: EntityLang, line: string): (r: Result<EntityLang>)
    ensures r.Ok? ==> forall e :: e != Fields(line)[0] ==> (e in r.value <==> e in table)
    ensures r.Ok? ==> forall e :: e != Fields(line)[0] && e in table ==> r.value[e] == table[e]
  {
    var fields := Fields(line);
    if |fields| == 1 then Ok(table)
    else
      var labels :- StoreFields(Labels(table, fields[0]), fields[1..]);
      Ok(table[fields[0] := labels])
  }

  /** `load_entity_lang` over the lines of the file. */
  function EntityLangTable(lines: seq<string>): (r: Result<EntityLang>)
    decreases |lines|
  {
    if |lines| == 0 then Ok(map[])
    else
      var earlier :- EntityLangTable(lines[..|lines| - 1]);
      StoreLine(earlier, lines[|lines| - 1])
  }

  /** Storing one more field, or failing on it. */
  lemma StoreFieldsStep(base: map<string, string>, fields: seq<string>, i: nat, labels: map<string, string>)
    requires i < |fields| && StoreFields(base, fields[..i]) == Ok(labels)
    ensures ParseField(fields[i]).Ok? ==>
              var (lang, name) := ParseField(fields[i]).value;
              StoreFields(base, fields[..i + 1]) == Ok(labels[lang := name])
    ensures ParseField(fields[i]).Err? ==> StoreFields(base, fields) == Err(BadUnpack)
  {
    assert fields[..i + 1][..i] == fields[..i];
  }

  /** The body of `load_entity_lang`'s loop for one line: the labels of the
      line's entity are updated field by field. */
  method StoreLineFields(table: EntityLang, line: string) returns (r: Result<EntityLang>)
    ensures r == StoreLine(table, line)
  {
    var fields := Fields(line);
    var entity := fields[0];
    var rest := fields[1..];
    var labels := Labels(table, entity);
    var current := table;
    for i := 0 to |rest|
      invariant StoreFields(Labels(table, entity), rest[..i]) == Ok(labels)
      invariant current == if i == 0 then table else table[entity := labels]
    {
      StoreFieldsStep(Labels(table, entity), rest, i, labels);
      var parsed := ParseField(rest[i]);
      if parsed.Err? {
        return Err(parsed.error);
      }
      labels := labels[parsed.value.0 := parsed.value.1];
      current := table[entity := labels];
    }
    assert rest[..|rest|] == rest;
    r := Ok(current);
  }

  /** Once a line fails, loading more lines fails the same way. */
  lemma {:induction false} EntityLangTablePrefixFails(lines: seq<string>, n: nat)
    requires n <= |lines| && EntityLangTable(lines[..n]).Err?
    ensures EntityLangTable(lines) == EntityLangTable(lines[..n])
    decreases |lines|
  {
    if n < |lines| {
      assert lines[..|lines| - 1][..n] == lines[..n];
      EntityLangTablePrefixFails(lines[..|lines| - 1], n);
    } else {
      assert lines[..n] == lines;
    }
  }

  /** `load_entity_lang`, line by line as the source runs it. */
  method LoadEntityLang(lines: seq<string>) returns (r: Result<EntityLang>)
    ensures r == EntityLangTable(lines)
  {
    var table: EntityLang := map[];
    for n := 0 to |lines|
      invariant EntityLangTable(lines[..n]) == Ok(table)
    {
      assert lines[..n + 1][..n] == lines[..n];
      var stored := StoreLineFields(table, lines[n]);
      if stored.Err? {
        EntityLangTablePrefixFails(lines, n + 1);
        return stored;
      }
      table := stored.value;
    }
    assert lines[..|lines|] == lines;
    r := Ok(table);
  }

  // ---------------------------------------------------------------------------
  // Choosing the facts to probe (scripts/probe.py:126-159)

  /** `--portion`: every fact, only facts with both labels in the language,
      or only the others. */
  datatype Portion = All | Trans | Non

  /** The switches of the run that decide which facts are probed. */
  datatype Options = Options(lang: string, portion: Portion, subObjSameLang: bool, skipMultiWord: bool)

  /** A line of the relation's fact file: the subject's and object's URIs. */
  datatype Fact = Fact(subUri: string, objUri: string)

  /** A fact with the labels and genders it is probed with. */
  datatype Query = Query(subUri: string, objUri: string, subLabel: string, objLabel: string,
                         subGender: string, objGender: string)

  /** What the source does with one fact. */
  datatype Outcome = Skipped | NoToken | MultiWord | Kept(query: Query)

  /** The tallies of the loop and the facts it keeps, in order. */
  datatype Selection = Selection(queries: seq<Query>, numSkip: nat, notExist: nat, numMultiWord: nat)

  /** Both the subject and the object have a label in the probed language. */
  predicate BothExist(table: EntityLang, lang: string, f: Fact) {
    lang in Labels(table, f.subUri) && lang in Labels(table, f.objUri)
  }

  /** The portion filter keeps a fact. */
  predicate PortionKeeps(portion: Portion, exist: bool) {
    match portion
    case All => true
    case Trans => exist
    case Non => !exist
  }

  /** `entity2lang[uri][key]`. */
  function LabelOf(table: EntityLang, uri: string, key: string): (r: Result<string>)
    ensures r.Ok? <==> key in Labels(table, uri)
    ensures r.Ok? ==> r.value == Labels(table, uri)[key]
    ensures r.Err? ==> r.error == MissingKey(key)
  {
    var labels := Labels(table, uri);
    if key in labels then Ok(labels[key]) else Err(MissingKey(key))
  }

  /** The body of the fact loop for one fact. `genderOf` is the entity-gender
      table and `hasUnknown` the tokenizer's test for an unknown token. */
  function Classify(table: EntityLang, genderOf: string -> string, hasUnknown: string -> bool,
                    opts: Options, f: Fact): (r: Result<Outcome>)
    ensures r == Ok(Skipped) <==> !PortionKeeps(opts.portion, BothExist(table, opts.lang, f))
    ensures r.Err? ==> r.error == MissingKey("en")
    ensures r.Ok? && r.value.MultiWord? ==> opts.skipMultiWord
  {
    var subExist := opts.lang in Labels(table, f.subUri);
    var objExist := opts.lang in Labels(table, f.objUri);
    var exist := subExist && objExist;
    if !PortionKeeps(opts.portion, exist) then Ok(Skipped)
    else
      var subGender := genderOf(f.subUri);
      var objGender := genderOf(f.objUri);
      var subLabel :- LabelOf(table, f.subUri, if (if opts.subObjSameLang then exist else subExist) then opts.lang else "en");
      var objLabel :- LabelOf(table, f.objUri, if (if opts.subObjSameLang then exist else objExist) then opts.lang else "en");
      // The source tests the subject label twice and never the object label.
      if hasUnknown(subLabel) || hasUnknown(subLabel) then Ok(NoToken)
      else if opts.skipMultiWord && ' ' in objLabel then Ok(MultiWord)
      else Ok(Kept(Query(f.subUri, f.objUri, subLabel, objLabel, subGender, objGender)))
  }

  /** A kept fact's query: the URIs and genders of the fact, each label in
      the probed language when the fallback rule allows it and in English
      otherwise, and a label that passed the unknown-token and multi-word
      tests. */
  lemma ClassifyKept(table: EntityLang, genderOf: string -> string, hasUnknown: string -> bool,
                     opts: Options, f: Fact)
    ensures var r := Classify(table, genderOf, hasUnknown, opts, f);
            r.Ok? && r.value.Kept? ==>
              var q := r.value.query;
              var sub := Labels(table, f.subUri);
              var obj := Labels(table, f.objUri);
              && q.subUri == f.subUri && q.objUri == f.objUri
              && q.subGender == genderOf(f.subUri) && q.objGender == genderOf(f.objUri)
              && (opts.subObjSameLang && BothExist(table, opts.lang, f) ==>
                    q.subLabel == sub[opts.lang] && q.objLabel == obj[opts.lang])
              && (opts.subObjSameLang && !BothExist(table, opts.lang, f) ==>
                    "en" in sub && "en" in obj && q.subLabel == sub["en"] && q.objLabel == obj["en"])
              && (!opts.subObjSameLang ==>
                    && (opts.lang in sub ==> q.subLabel == sub[opts.lang])
                    && (opts.lang !in sub ==> "en" in sub && q.subLabel == sub["en"])
                    && (opts.lang in obj ==> q.objLabel == obj[opts.lang])
                    && (opts.lang !in obj ==> "en" in obj && q.objLabel == obj["en"]))
              && !hasUnknown(q.subLabel)
              && !(opts.skipMultiWord && ' ' in q.objLabel)
  {
  }

  /** Adding one fact's outcome to the tallies. */
  function Tally(s: Selection, o: Outcome): Selection {
    match o
    case Skipped => s.(numSkip := s.numSkip + 1)
    case NoToken => s.(notExist := s.notExist + 1)
    case MultiWord => s.(numMultiWord := s.numMultiWord + 1)
    case Kept(q) => s.(queries := s.queries + [q])
  }

  /** The fact loop of one relation; a missing English label aborts the
      relation. */
  function Select(table: EntityLang, genderOf: string -> string, hasUnknown: string -> bool,
                  opts: Options, facts: seq<Fact>): (r: Result<Selection>)
    ensures r.Ok? ==> |r.value.queries| + r.value.numSkip + r.value.notExist + r.value.numMultiWord == |facts|
    ensures r.Err? ==> r.error == MissingKey("en")
    decreases |facts|
  {
    if |facts| == 0 then Ok(Selection([], 0, 0, 0))
    else
      var earlier :- Select(table, genderOf, hasUnknown, opts, facts[..|facts| - 1]);
      var o :- Classify(table, genderOf, hasUnknown, opts, facts[|facts| - 1]);
      Ok(Tally(earlier, o))
  }

  /** The number of facts the portion filter drops. */
  function Dropped(table: EntityLang, opts: Options, facts: seq<Fact>): nat
    decreases |facts|
  {
    if |facts| == 0 then 0
    else
      Dropped(table, opts, facts[..|facts| - 1])
      + (if PortionKeeps(opts.portion, BothExist(table, opts.lang, facts[|facts| - 1])) then 0 else 1)
  }

  /** `num_skip` counts exactly the facts the portion filter drops, and every
      query kept passes the portion filter and the unknown-token and
      multi-word tests. */
  lemma {:induction false} SelectFilters(table: EntityLang, genderOf: string -> string, hasUnknown: string -> bool,
                                         opts: Options, facts: seq<Fact>)
    requires Select(table, genderOf, hasUnknown, opts, facts).Ok?
    ensures var s := Select(table, genderOf, hasUnknown, opts, facts).value;
            && s.numSkip == Dropped(table, opts, facts)
            && (forall k :: 0 <= k < |s.queries| ==>
                  var q := s.queries[k];
                  && PortionKeeps(opts.portion, BothExist(table, opts.lang, Fact(q.subUri, q.objUri)))
                  && !hasUnknown(q.subLabel)
                  && !(opts.skipMultiWord && ' ' in q.objLabel))
            && (!opts.skipMultiWord ==> s.numMultiWord == 0)
    decreases |facts|
  {
    if |facts| > 0 {
      var init := facts[..|facts| - 1];
      SelectFilters(table, genderOf, hasUnknown, opts, init);
      ClassifyKept(table, genderOf, hasUnknown, opts, facts[|facts| - 1]);
    }
  }

  /** Once a fact aborts the relation, later facts change nothing. */
  lemma {:induction false} SelectPrefixFails(table: EntityLang, genderOf: string -> string, hasUnknown: string -> bool,
                                             opts: Options, facts: seq<Fact>, n: nat)
    requires n <= |facts| && Select(table, genderOf, hasUnknown, opts, facts[..n]).Err?
    ensures Select(table, genderOf, hasUnknown, opts, facts) == Select(table, genderOf, hasUnknown, opts, facts[..n])
    decreases |facts|
  {
    if n < |facts| {
      assert facts[..|facts| - 1][..n] == facts[..n];
      SelectPrefixFails(table, genderOf, hasUnknown, opts, facts[..|facts| - 1], n);
    } else {
      assert facts[..n] == facts;
    }
  }

  /** The loop over the first `n + 1` facts is the loop over the first `n`
      and then the body for fact `n`. */
  lemma SelectStep(table: EntityLang, genderOf: string -> string, hasUnknown: string -> bool,
                   opts: Options, facts: seq<Fact>, n: nat)
    requires n < |facts|
    ensures var earlier := Select(table, genderOf, hasUnknown, opts, facts[..n]);
            Select(table, genderOf, hasUnknown, opts, facts[..n + 1])
              == if earlier.Err? then earlier
                 else match Classify(table, genderOf, hasUnknown, opts, facts[n])
                   case Err(e) => Err(e)
                   case Ok(o) => Ok(Tally(earlier.value, o))
  {
    assert facts[..n + 1][..n] == facts[..n];
  }

  /** The counter or the list one outcome updates. */
  method Record(queries: seq<Query>, numSkip: nat, notExist: nat, numMultiWord: nat, o: Outcome)
    returns (queries': seq<Query>, numSkip': nat, notExist': nat, numMultiWord': nat)
    ensures Selection(queries', numSkip', notExist', numMultiWord')
         == Tally(Selection(queries, numSkip, notExist, numMultiWord), o)
  {
    queries', numSkip', notExist', numMultiWord' := queries, numSkip, notExist, numMultiWord;
    match o
    case Skipped => numSkip' := numSkip + 1;
    case NoToken => notExist' := notExist + 1;
    case MultiWord => numMultiWord' := numMultiWord + 1;
    case Kept(q) => queries' := queries + [q];
  }

  /** The fact loop as the source runs it, counters and list updated fact by
      fact. */
  method SelectQueries(table: EntityLang, genderOf: string -> string, hasUnknown: string -> bool,
                       opts: Options, facts: seq<Fact>) returns (r: Result<Selection>)
    ensures r == Select(table, genderOf, hasUnknown, opts, facts)
  {
    var queries: seq<Query> := [];
    var numSkip, notExist, numMultiWord := 0, 0, 0;
    for n := 0 to |facts|
      invariant Select(table, genderOf, hasUnknown, opts, facts[..n])
             == Ok(Selection(queries, numSkip, notExist, numMultiWord))
    {
      SelectStep(table, genderOf, hasUnknown, opts, facts, n);
      var o := Classify(table, genderOf, hasUnknown, opts, facts[n]);
      if o.Err? {
        SelectPrefixFails(table, genderOf, hasUnknown, opts, facts, n + 1);
        return Err(o.error);
      }
      queries, numSkip, notExist, numMultiWord := Record(queries, numSkip, notExist, numMultiWord, o.value);
    }
    assert facts[..|facts|] == facts;
    r := Ok(Selection(queries, numSkip, notExist, numMultiWord));
  }

  // ---------------------------------------------------------------------------
  // The model inputs of one query (scripts/probe.py:166-178)

  /** `MASK_LABEL`, the mask symbol put in place of the object. */
  const MaskLabel: string := "[MASK]"

  /** The mask loop of one query on top of the subject rendering `x`:
      iteration `nm` renders the object with `nm + 1` masks. */
  function MaskLoop(r: Renderer, env: Prompt.Env, x: string, q: Query): int -> Result<Prompt.Rendered> {
    nm => FillY(r, env, x, q.objLabel, q.objGender, nm + 1, MaskLabel)
  }

  /** Iterations `0 .. k - 1` of a loop whose iteration `nm` yields
      `step(nm)`, stopped by the first one that fails. */
  function Iterations(step: int -> Result<Prompt.Rendered>, k: nat): (res: Result<seq<Prompt.Rendered>>)
    ensures res.Ok? ==> |res.value| == k
    ensures res.Ok? <==> forall nm :: 0 <= nm < k ==> step(nm).Ok?
    ensures res.Ok? ==> forall nm :: 0 <= nm < k ==> step(nm) == Ok(res.value[nm])
    ensures res.Err? ==> exists nm :: 0 <= nm < k && step(nm) == Err(res.error)
    decreases k
  {
    if k == 0 then Ok([])
    else
      var earlier :- Iterations(step, k - 1);
      var last :- step(k - 1);
      Ok(earlier + [last])
  }

  /** One more iteration. */
  lemma IterationsStep(step: int -> Result<Prompt.Rendered>, nm: nat, ys: seq<Prompt.Rendered>)
    requires Iterations(step, nm) == Ok(ys)
    ensures Iterations(step, nm + 1) == if step(nm).Ok? then Ok(ys + [step(nm).value]) else Err(step(nm).error)
  {
  }

  /** Once an iteration fails, the later ones are never reached. */
  lemma {:induction false} IterationsPrefixFails(step: int -> Result<Prompt.Rendered>, n: nat, k: nat)
    requires n <= k && Iterations(step, n).Err?
    ensures Iterations(step, k) == Iterations(step, n)
    decreases k
  {
    if n < k {
      IterationsPrefixFails(step, n, k - 1);
    }
  }

  /** What one query contributes: one model input per mask count, and the
      gold object label (the label the last object rendering returned). */
  datatype Inputs = Inputs(texts: seq<string>, gold: string)

  function Texts(rs: seq<Prompt.Rendered>): (r: seq<string>)
    ensures |r| == |rs| && forall i :: 0 <= i < |rs| ==> r[i] == rs[i].text
  {
    seq(|rs|, i requires 0 <= i < |rs| => rs[i].text)
  }

  /** The subject is rendered once, then the object on top of it once per mask
      count `1 .. numMask` in increasing order. Without any mask count the
      gold label is never assigned. */
  function QueryInputs(r: Renderer, env: Prompt.Env, prompt: string, q: Query, numMask: int): (res: Result<Inputs>)
    ensures FillX(r, env, prompt, q.subLabel, q.subGender).Err? ==>
              res == Err(FillX(r, env, prompt, q.subLabel, q.subGender).error)
    ensures FillX(r, env, prompt, q.subLabel, q.subGender).Ok? && numMask <= 0 ==> res == Err(Unbound("obj_label"))
    ensures res.Ok? ==>
              var x := FillX(r, env, prompt, q.subLabel, q.subGender);
              && x.Ok? && numMask > 0 && |res.value.texts| == numMask
              && (forall nm :: 0 <= nm < numMask ==>
                    && MaskLoop(r, env, x.value.text, q)(nm).Ok?
                    && res.value.texts[nm] == MaskLoop(r, env, x.value.text, q)(nm).value.text)
              && res.value.gold == MaskLoop(r, env, x.value.text, q)(numMask - 1).value.name
  {
    var x :- FillX(r, env, prompt, q.subLabel, q.subGender);
    if numMask <= 0 then Err(Unbound("obj_label"))
    else
      var ys :- Iterations(MaskLoop(r, env, x.text, q), numMask);
      Ok(Inputs(Texts(ys), ys[numMask - 1].name))
  }

  /** The default renderer never fails: every mask count gives the template
      with the subject substituted and that many masks for the object, and
      the gold label is the object label itself. */
  lemma PlainInputs(settings: Prompt.Settings, env: Prompt.Env, prompt: string, q: Query, numMask: int)
    requires numMask > 0
    ensures var res := QueryInputs(Plain(settings), env, prompt, q, numMask);
            && res.Ok?
            && (forall nm :: 0 <= nm < numMask ==>
                  res.value.texts[nm] == Prompt.FillY(Prompt.FillX(prompt, q.subLabel).text, q.objLabel, nm + 1, MaskLabel).text)
            && res.value.gold == q.objLabel
  {
    var step := MaskLoop(Plain(settings), env, Prompt.FillX(prompt, q.subLabel).text, q);
    assert forall nm :: 0 <= nm < numMask ==> step(nm).Ok?;
  }

  /** `QueryInputs` once the subject and the object renderings are known. */
  lemma QueryInputsFrom(r: Renderer, env: Prompt.Env, prompt: string, q: Query, numMask: int,
                        x: Prompt.Rendered, ys: Result<seq<Prompt.Rendered>>)
    requires FillX(r, env, prompt, q.subLabel, q.subGender) == Ok(x)
    requires numMask > 0 && Iterations(MaskLoop(r, env, x.text, q), numMask) == ys
    ensures ys.Err? ==> QueryInputs(r, env, prompt, q, numMask) == Err(ys.error)
    ensures ys.Ok? ==> QueryInputs(r, env, prompt, q, numMask) == Ok(Inputs(Texts(ys.value), ys.value[numMask - 1].name))
  {
  }

  /** The mask loop for one query, through the memo tables: the object
      rendered on top of the subject rendering `x` with `1 .. count` masks. */
  method RenderObjects(r: Renderer, latin: LatinMemo, cache: InflectCache, x: string, q: Query, count: nat)
    returns (res: Result<seq<Prompt.Rendered>>)
    requires latin.Valid() && cache.Valid()
    modifies latin, cache
    ensures latin.Valid() && cache.Valid()
    ensures res == Iterations(MaskLoop(r, Prompt.Env(cache.inflect, latin.tables), x, q), count)
  {
    ghost var step := MaskLoop(r, Prompt.Env(cache.inflect, latin.tables), x, q);
    var ys: seq<Prompt.Rendered> := [];
    for nm := 0 to count
      invariant latin.Valid() && cache.Valid()
      invariant step == MaskLoop(r, Prompt.Env(cache.inflect, latin.tables), x, q)
      invariant Iterations(step, nm) == Ok(ys)
    {
      var y := RenderObject(r, latin, cache, x, q.objLabel, q.objGender, nm + 1, MaskLabel);
      assert y == step(nm);
      IterationsStep(step, nm, ys);
      if y.Err? {
        IterationsPrefixFails(step, nm + 1, count);
        return Err(y.error);
      }
      ys := ys + [y.value];
    }
    res := Ok(ys);
  }

  /** The inner loop of the batch loop for one query, through the memo
      tables. */
  method RenderQuery(r: Renderer, latin: LatinMemo, cache: InflectCache, prompt: string, q: Query, numMask: int)
    returns (res: Result<Inputs>)
    requires latin.Valid() && cache.Valid()
    modifies latin, cache
    ensures latin.Valid() && cache.Valid()
    ensures res == QueryInputs(r, Prompt.Env(cache.inflect, latin.tables), prompt, q, numMask)
  {
    var x := RenderSubject(r, latin, cache, prompt, q.subLabel, q.subGender);
    if x.Err? {
      return Err(x.error);
    }
    if numMask <= 0 {
      return Err(Unbound("obj_label"));
    }
    var ys := RenderObjects(r, latin, cache, x.value.text, q, numMask);
    QueryInputsFrom(r, Prompt.Env(cache.inflect, latin.tables), prompt, q, numMask, x.value, ys);
    if ys.Err? {
      return Err(ys.error);
    }
    res := Ok(Inputs(Texts(ys.value), ys.value[numMask - 1].name));
  }

  // ---------------------------------------------------------------------------
  // Scoring (scripts/probe.py:204-205)

  /** `int(len(pred) == len(obj) and (pred == obj).all())`. */
  function ExactMatch(pred: seq<int>, gold: seq<int>): (r: int)
    ensures r == 0 || r == 1
    ensures r == 1 <==> pred == gold
  {
    if |pred| == |gold| && forall i :: 0 <= i < |pred| ==> pred[i] == gold[i] then 1 else 0
  }

  /** `int(len(pred) == len(obj))`. */
  function LengthMatch(pred: seq<int>, gold: seq<int>): (r: int)
    ensures r == 0 || r == 1
    ensures r == 1 <==> |pred| == |gold|
  {
    if |pred| == |gold| then 1 else 0
  }

  function Sum(xs: seq<int>): int
    decreases |xs|
  {
    if |xs| == 0 then 0 else Sum(xs[..|xs| - 1]) + xs[|xs| - 1]
  }

  /** The scores of the facts, appended one fact at a time: an exact match
      is never scored without a length match, so accuracy never exceeds the
      length accuracy. */
  method Score(preds: seq<seq<int>>, golds: seq<seq<int>>) returns (acc: seq<int>, lenAcc: seq<int>)
    requires |preds| == |golds|
    ensures |acc| == |lenAcc| == |preds|
    ensures forall i :: 0 <= i < |preds| ==> acc[i] == ExactMatch(preds[i], golds[i])
    ensures forall i :: 0 <= i < |preds| ==> lenAcc[i] == LengthMatch(preds[i], golds[i])
    ensures forall i :: 0 <= i < |preds| ==> acc[i] <= lenAcc[i]
    ensures Sum(acc) <= Sum(lenAcc)
  {
    acc, lenAcc := [], [];
    for i := 0 to |preds|
      invariant |acc| == |lenAcc| == i
      invariant forall j :: 0 <= j < i ==> acc[j] == ExactMatch(preds[j], golds[j])
      invariant forall j :: 0 <= j < i ==> lenAcc[j] == LengthMatch(preds[j], golds[j])
      invariant Sum(acc) <= Sum(lenAcc)
    {
      var a := ExactMatch(preds[i], golds[i]);
      var l := LengthMatch(preds[i], golds[i]);
      assert (acc + [a])[..i] == acc && (lenAcc + [l])[..i] == lenAcc;
      acc := acc + [a];
      lenAcc := lenAcc + [l];
    }
  }
}
