# X-FACTR prompt rendering, probing data flow and multi-entity T-REx, in Dafny

X-FACTR probes multilingual masked language models with fact templates such
as `[X] was born in [Y] .`. This project models the parts of it that decide
what text the model sees and how the answers are counted:

- **Prompt rendering** (`scripts/prompt.py`). The default renderer
  substitutes `[X]` and `[Y]` (`prompt.dfy`). `from_lang` picks a renderer
  by language code (`render.dfy`). The Greek renderer reads number and
  gender off the label's ending, decides whether to inflect it, fills the
  first case slot of a precedence table and looks articles up in a table
  loaded from a tab-separated file (`prompt_el.dfy`). The Russian renderer
  guesses a gender from the label's ending, fills its case slot and
  rewrites the words whose form depends on the entity's gender
  (`prompt_ru.dfy`). The `latin_letters` memo of `is_latin`/
  `some_roman_chars` is a class (`script.dfy`). So is the `lru_cache`
  around the inflection engine (`inflection.dfy`).
- **Probing** (`scripts/probe.py`, `probe.dfy`): `batcher`,
  `load_entity_lang`, the per-relation choice of facts with the portion
  filter, the English label fallback and the unknown-token and multi-word
  tests, the renderings fed to the model for one fact (one per mask count),
  and the two per-fact scores.
- **Multi-entity T-REx** (`scripts/trex_multi_entity.py`,
  `trex_multi_entity.dfy`): `filter_by_relations`, the `gen` tally of
  surface forms per relation and (subject, object) pair, and the output of
  each relation, most frequent pairs first with their most frequent
  labels.

Python's string and list primitives are in `text.dfy`. Examples are `split`,
`join`, `replace`, `find`, `strip`, `rsplit`, `index` and `[x] * n`. The
exceptions the scripts raise are in `wrappers.dfy`: a missing key, an index
out of range, a bad unpack, a zero step, an unbound local, an explicit raise.
Every operation that can raise returns a `Result`, so each error path is
modelled rather than excluded by a precondition. Where the code loops or
updates state, a method does it step by step and is proved equal to a
function that specifies it. The properties are proved about that function.

Where the code and its documentation part ways, the model follows the code:

- The Russian `fill_y` decides whether to inflect from the subject's flag
  `'x'`, not from `'y'`.
- Its gender words get the caller's raw gender string, not the mapped one.
- The Russian feminine test compares with a Latin `a`.
- `probe.py` tests the subject label twice for unknown tokens and never the
  object label.
- The Greek renderers read an unassigned `ent_case` or `i` when no slot is
  present. That is modelled as the `UnboundLocalError` it raises.

## Model

| member | source | states |
|---|---|---|
| Text.Find | scripts/prompt.py:44 | the position found is an occurrence, and no earlier position is one; `None` exactly when there is no occurrence |
| Text.FindIs | scripts/prompt.py:44 | an occurrence with none before it is the one found |
| Text.Split | scripts/prompt.py:95 | splitting gives at least one piece and no piece holds the separator |
| Text.SplitFirst | scripts/prompt.py:302 | `s.split(sep)[0]` is the text of `s` before its first `sep`, or all of `s` when there is none |
| Text.FirstPieceUnique | scripts/prompt.py:302 | only one string is the text before the first separator, so `FirstPiece` pins the first piece down |
| Text.JoinSplit | scripts/prompt.py:95 | joining the pieces of a split with the separator gives the string back |
| Text.SplitJoin | scripts/prompt.py:159 | splitting a join of separator-free pieces gives the pieces back |
| Text.IndexOf | scripts/prompt.py:98 | `list.index`: the position holds the item and no earlier one does |
| Text.Repeat | scripts/prompt.py:51 | `[x] * n` has `n` copies of `x`, none for `n <= 0` |
| Text.Tail | scripts/prompt.py:80 | for a positive `n`, `s[-n:]` is the last `min(n, len(s))` characters of `s` |
| Text.Inner | scripts/prompt.py:300 | `s[1:-1]` is `s` without its first and last characters, empty for shorter strings |
| Text.StripSlice | scripts/probe.py:45 | `strip` keeps a slice that neither starts nor ends with a stripped character, and cuts only stripped characters around it |
| Text.StripIdempotent | scripts/prompt.py:242 | stripping a stripped string changes nothing |
| Text.RSplitOnce | scripts/probe.py:48 | `rsplit(c, 1)` unpacks exactly when `c` occurs; the parts rebuild the string around the last `c` |
| Script.LatinMemo.constructor | scripts/prompt.py:18 | the memo starts empty and consistent with the character tables |
| Script.LatinMemo.IsLatin | scripts/prompt.py:19-23 | a hit and a miss both answer what the Unicode name says; a miss adds exactly that character |
| Script.LatinMemo.SomeRoman | scripts/prompt.py:26-27 | the answer is "some alphabetic character has a Latin name"; the memo only gains alphabetic characters of the string |
| Inflection.FirstForm | scripts/prompt.py:111 | `inflect(...)[0]` succeeds exactly when the engine offers a form, and is its first form |
| Inflection.InflectCache.constructor | scripts/prompt.py:11-13 | the cache starts empty |
| Inflection.InflectCache.Inflect | scripts/prompt.py:11-13 | a hit returns exactly what the engine would; the cache stays consistent |
| Inflection.InflectTwice | scripts/prompt.py:11-13 | two calls with the same arguments agree with each other and with the engine |
| Prompt.GenderMap | scripts/prompt.py:31-35 | the three known genders map to MASC, FEM, NEUT; any other gender is a missing key |
| Prompt.MaskRunWords | scripts/prompt.py:51 | the mask run of `n > 0` masks splits back into `n` mask symbols |
| Prompt.FillXSubstitutes | scripts/prompt.py:43-44 | default `fill_x` replaces the first `[X]` with the label and continues after it; no `[X]` leaves the template unchanged; the label is returned as given |
| Prompt.FillYSubstitutes | scripts/prompt.py:47-51 | default `fill_y` puts the label (no masks) or the mask run at the first `[Y]` and continues; the label is returned as given |
| Prompt.FirstSlot | scripts/prompt.py:97-121 | the slot chosen is present and no slot earlier in the precedence order is |
| Prompt.PlaceSlot | scripts/prompt.py:97-121 | only the first occurrence of the first present slot is overwritten, with the masks or the label form; an oblique slot inflects unless inflection is off; a failure means the engine had no form |
| PromptEL.ArticleTable | scripts/prompt.py:69-73 | the article file loads exactly when every stripped line has at least two tab-separated fields |
| PromptEL.ArticleTableLastWins | scripts/prompt.py:71-73 | every key read is in the table and maps to the form of the last line with that key |
| PromptEL.ArticleTableOnlyLines | scripts/prompt.py:69-73 | every key in the table comes from some line, so a key no line carries is a missing key when looked up |
| PromptEL.LoadArticles | scripts/prompt.py:67-73 | the constructor's loop builds the table `ArticleTable` specifies |
| PromptEL.NumberGender | scripts/prompt.py:79-85 | "ες" gives feminine plural, else a final 'ά' neuter plural, else singular of the given gender; an empty label is an index error |
| PromptEL.Agree | scripts/prompt.py:79-85 | the branch chain computes `NumberGender` |
| PromptEL.ArticleKey | scripts/prompt.py:125-136 | the key fails exactly for an agreeing article without a case, which reads the unassigned `ent_case` |
| PromptEL.ArticleChoice | scripts/prompt.py:124-136 | a chosen article position is a word of the template |
| PromptEL.ArticleChoiceResolves | scripts/prompt.py:124-136 | the article checks succeed exactly when every placeholder present has a key that is in the table |
| PromptEL.ArticleChoiceLastWins | scripts/prompt.py:124-136 | on success there is a choice exactly when some placeholder is present, and the last one present decides the position and the form |
| PromptEL.ApplyArticle | scripts/prompt.py:138-142 | the chosen word becomes the article, or `''` when articles are disabled; no other word changes |
| PromptEL.AgreeingArticle | scripts/prompt.py:125-128 | one agreeing check (`DEF`, `PREPDEF`, `INDEF`) is the specified step |
| PromptEL.GenitiveArticle | scripts/prompt.py:129-132 | the genitive check is the specified step, whatever the case |
| PromptEL.FeminineArticle | scripts/prompt.py:214-217 | the feminine check is the specified step, whatever the case |
| PromptEL.ArticlesX | scripts/prompt.py:124-142 | the three subject article checks and the replacement compute the article stage |
| PromptEL.ArticlesY | scripts/prompt.py:195-223 | the five object article checks and the replacement compute the article stage |
| PromptEL.PlaceX | scripts/prompt.py:97-121 | the subject slot chain computes the slot stage over the Greek subject slots |
| PromptEL.PlaceY | scripts/prompt.py:171-192 | the object slot chain computes the slot stage; no slot reads the unassigned `i` |
| PromptEL.KeepsForm | scripts/prompt.py:87-90 | the do-not-inflect test is Latin letters, or upper case, or a final consonant of `SUFS` |
| PromptEL.FillX | scripts/prompt.py:76-144 | Greek `fill_x`, through both memos, is `RenderX` |
| PromptEL.FillY | scripts/prompt.py:147-225 | Greek `fill_y`, through both memos, is `RenderY` |
| PromptEL.RenderXWithoutSlots | scripts/prompt.py:76-144 | with no subject slot and no subject article, `fill_x` returns the template unchanged |
| PromptEL.RenderYWithoutSlot | scripts/prompt.py:169-192 | with no object slot, `fill_y` fails on the unassigned `i` |
| PromptEL.RenderXInflectionOff | scripts/prompt.py:87-121 | when the label is not to be inflected, `fill_x` never consults the engine and returns the label unchanged |
| PromptEL.SubjectSlotKeepsForm | scripts/prompt.py:106-121 | the subject slot stage with inflection off is independent of the engine and keeps the label |
| PromptEL.RenderYInflectionOff | scripts/prompt.py:161-187 | when the label is not to be inflected, `fill_y` never consults the engine and returns the label unchanged |
| PromptEL.ObjectSlotKeepsForm | scripts/prompt.py:178-187 | the object slot stage with inflection off is independent of the engine and keeps the label |
| PromptEL.RenderXInflects | scripts/prompt.py:106-121 | with inflection on and an oblique subject slot first, the label returned is the engine's first form for that case and number |
| PromptEL.RenderYInflects | scripts/prompt.py:166-187 | with inflection on and an oblique object slot first, the label returned is the engine's first form for that case and number, whether or not the slot gets masks |
| PromptEL.ArticleStageIgnoresDisable | scripts/prompt.py:219-223 | whether the article stage fails, and with which error, does not depend on `disable_article` |
| PromptEL.DisableArticleKeepsFailuresX | scripts/prompt.py:124-142 | toggling `disable_article` changes no failure of `fill_x` and not the label it returns |
| PromptEL.DisableArticleKeepsFailuresY | scripts/prompt.py:195-223 | toggling `disable_article` changes no failure of `fill_y` and not the label it returns |
| PromptRU.GenderHeuristic | scripts/prompt.py:241-250 | on the stripped word: FEM exactly for a feminine ending, NEUT exactly for a neuter one, MASC otherwise; a blank word is an index error |
| PromptRU.GenderHeuristicStrips | scripts/prompt.py:242 | the heuristic gives the same answer on the stripped word |
| PromptRU.SubjectGender | scripts/prompt.py:259 | a known gender goes through the table, `'none'` through the heuristic; the result is MASC, FEM or NEUT |
| PromptRU.ChooseAlternative | scripts/prompt.py:299-306 | a masculine or feminine entity always gets the first alternative, any other gender the second, and the form is that alternative, stripped, up to its first `;`; a non-masculine, non-feminine one fails exactly when there is no second |
| PromptRU.WordLemma | scripts/prompt.py:308 | the lemma of a `[lemma.Tag]` word is the stripped word without its brackets, up to its first `.` |
| PromptRU.InflectGenderWord | scripts/prompt.py:308-315 | with inflection off the word becomes its lemma; with it on, a `Pst` word takes the past-tense form and a `Lgspec1` word the long adjective form for the gender |
| PromptRU.RewriteWord | scripts/prompt.py:297-315 | a word can only fail with an index error |
| PromptRU.RewriteWords | scripts/prompt.py:297-315 | the loop succeeds exactly when every word does, and then rewrites each word on its own and keeps the length |
| PromptRU.RewriteWordsFailure | scripts/prompt.py:297-315 | every failure of the gender-word loop is an index error |
| PromptRU.RewriteWordsInflectionOff | scripts/prompt.py:310-315 | with inflection off, the gender words never consult the engine |
| PromptRU.RenderXWithoutSlot | scripts/prompt.py:292-293 | without a subject slot `fill_x` raises "no X" |
| PromptRU.RenderYWithoutSlot | scripts/prompt.py:369-370 | without an object slot `fill_y` raises "no Y" |
| PromptRU.MasculineSlotForcesGender | scripts/prompt.py:278-281 | when `[X.Masc.Nom]` is the subject slot, every resolvable subject gender renders the same |
| PromptRU.RenderXInflectionOff | scripts/prompt.py:262-294 | with `'x'` disabled, `fill_x` never consults the engine and returns the label unchanged |
| PromptRU.RenderYSubjectFlag | scripts/prompt.py:327-333 | with `'x'` disabled, `fill_y` never consults the engine and returns the label unchanged |
| PromptRU.RenderYIgnoresObjectFlag | scripts/prompt.py:332-333 | once anything is disabled, also disabling `'y'` changes nothing in `fill_y` |
| PromptRU.KeepsForm | scripts/prompt.py:262-265 | the do-not-inflect test is Latin letters or upper case, with no consonant test |
| PromptRU.PlaceX | scripts/prompt.py:272-294 | the subject slot chain computes the slot stage, raising "no X" without a slot |
| PromptRU.FindY | scripts/prompt.py:337-370 | the chain of membership tests finds the first object slot of the precedence order |
| PromptRU.PlaceY | scripts/prompt.py:337-375 | the object slot chain computes the slot stage, raising "no Y" without a slot |
| PromptRU.RewriteGenderWord | scripts/prompt.py:378-387 | the loop body for one word computes `RewriteWord` |
| PromptRU.RewriteGenderWords | scripts/prompt.py:297-315 | the in-place loop over the words computes `RewriteWords` |
| PromptRU.FillX | scripts/prompt.py:258-317 | Russian `fill_x`, through both memos, is `RenderX` |
| PromptRU.FillY | scripts/prompt.py:321-389 | Russian `fill_y`, through both memos, is `RenderY` |
| Render.FromLang | scripts/prompt.py:54-60 | `el` builds the Greek renderer, `ru` the Russian one, anything else the default; given an explicit set of slot letters, only the Greek construction can fail, exactly on a bad article line |
| Render.OtherLanguagesSubstitute | scripts/prompt.py:54-60 | for every other language code, rendering is plain substitution and never fails |
| Render.SubjectFlagKeepsLabel | scripts/prompt.py:54-60 | for every variant, with `'x'` disabled, `fill_x` is independent of the engine and returns the label given |
| Render.Build | scripts/prompt.py:54-60 | constructing the renderer, with the Greek loading loop, gives `FromLang` |
| Render.RenderSubject | scripts/probe.py:168-169 | the subject rendering through the memos is the variant's `fill_x` |
| Render.RenderObject | scripts/probe.py:171-173 | the object rendering through the memos is the variant's `fill_y` |
| Probe.Chunks | scripts/probe.py:37-39 | no batch is empty or longer than the batch size, and only the last may be shorter |
| Probe.ChunksFlatten | scripts/probe.py:37-39 | the batches put back together are the data, in order |
| Probe.ChunksAt | scripts/probe.py:38-39 | batch `k` is `data[k*size:k*size+size]` |
| Probe.Batches | scripts/probe.py:37-39 | a zero batch size raises, a negative one yields nothing, a positive one partitions the data in order |
| Probe.ParseField | scripts/probe.py:48-49 | a field unpacks exactly when it holds an `@` |
| Probe.ParseFieldParts | scripts/probe.py:48-49 | `raw@lang` gives that language and the raw label without its surrounding quotes, whatever `@`s the label holds |
| Probe.Fields | scripts/probe.py:45 | a stripped line always has a first field |
| Probe.StoreFields | scripts/probe.py:47-49 | storing a line's fields succeeds exactly when every field has an `@` |
| Probe.StoreFieldsKeeps | scripts/probe.py:47-49 | a language no field names keeps its label, or stays absent |
| Probe.StoreFieldsLastWins | scripts/probe.py:47-49 | the label stored for a language is that of the last field in that language |
| Probe.StoreLine | scripts/probe.py:44-49 | one line changes at most the labels of its own entity |
| Probe.StoreLineFields | scripts/probe.py:44-49 | the field loop of one line computes `StoreLine` |
| Probe.LoadEntityLang | scripts/probe.py:41-50 | the line loop computes the entity-to-language-to-label table, stopping at the first bad field |
| Probe.LabelOf | scripts/probe.py:147-151 | the lookup succeeds exactly when the entity has a label in that language, else a missing key |
| Probe.Classify | scripts/probe.py:133-158 | a fact is skipped exactly when the portion filter drops it; a failure is a missing English label; a multi-word outcome needs the switch |
| Probe.ClassifyKept | scripts/probe.py:143-159 | a kept fact's labels come from the probed language when the fallback rule allows it and from English otherwise, and passed the unknown-token and multi-word tests |
| Probe.Select | scripts/probe.py:126-159 | the kept queries and the three counters add up to the number of facts; a failure is a missing English label |
| Probe.SelectFilters | scripts/probe.py:136-159 | `num_skip` counts exactly the facts the portion filter drops; every kept query passes all filters; without the switch nothing is counted as multi-word |
| Probe.Record | scripts/probe.py:136-159 | one outcome increments its own counter or appends its query, and nothing else |
| Probe.SelectQueries | scripts/probe.py:126-159 | the fact loop with its counters computes `Select` |
| Probe.Iterations | scripts/probe.py:170-173 | the loop succeeds exactly when every iteration does, then yields them in order; a failure is that of some iteration |
| Probe.QueryInputs | scripts/probe.py:166-181 | the subject is rendered once and the object once per mask count `1..n` on top of it; the gold label is the last object rendering's; no mask count leaves `obj_label` unbound |
| Probe.PlainInputs | scripts/probe.py:168-173 | with the default renderer every mask count renders by substitution and the gold label is the object label |
| Probe.RenderObjects | scripts/probe.py:170-175 | the mask loop through the memos computes `Iterations` |
| Probe.RenderQuery | scripts/probe.py:166-181 | the inner loop for one query computes `QueryInputs` |
| Probe.ExactMatch | scripts/probe.py:204 | the accuracy score is 1 exactly when the prediction equals the gold tokens, else 0 |
| Probe.LengthMatch | scripts/probe.py:205 | the length score is 1 exactly when the lengths agree, else 0 |
| Probe.Score | scripts/probe.py:204-205 | the scores are appended fact by fact; no fact scores accuracy without length accuracy, so the sums are ordered |
| TrexMultiEntity.Ident | scripts/trex_multi_entity.py:23 | a URI without `/` is an index error; the identifier has no `/` |
| TrexMultiEntity.IdentAfterLastSlash | scripts/trex_multi_entity.py:23 | the identifier is what follows the last `/` |
| TrexMultiEntity.FactOf | scripts/trex_multi_entity.py:21-25 | a bad triple is an index error |
| TrexMultiEntity.FactOfParts | scripts/trex_multi_entity.py:21-25 | a triple gives a fact exactly when all three URIs hold a `/`; the fact pairs each identifier with its surface form |
| TrexMultiEntity.ParseAll | scripts/trex_multi_entity.py:19-25 | all triples convert exactly when each does; the facts correspond one to one, in order; a failure is some triple's |
| TrexMultiEntity.ParseAllAppend | scripts/trex_multi_entity.py:19-25 | converting two runs of triples is converting each and appending |
| TrexMultiEntity.KeepOnly | scripts/trex_multi_entity.py:26-32 | a fact is kept exactly when it is a `P` relation between two `Q` items of a known relation |
| TrexMultiEntity.KeepOnlyAppend | scripts/trex_multi_entity.py:26-32 | the filter distributes over appending |
| TrexMultiEntity.FilterTriples | scripts/trex_multi_entity.py:17-32 | filtering fails exactly when some triple has a URI without `/`, with an index error; every fact yielded passes the filter |
| TrexMultiEntity.FilterTriplesMembers | scripts/trex_multi_entity.py:17-32 | a fact is yielded exactly when some triple converts to it and it passes the filter |
| TrexMultiEntity.FilterTriplesAppend | scripts/trex_multi_entity.py:19-32 | filtering two runs of triples is filtering each and appending |
| TrexMultiEntity.FilterDocument | scripts/trex_multi_entity.py:20-32 | the loop over one document extends the output by exactly its kept facts, or fails as the whole run does |
| TrexMultiEntity.FilterByRelations | scripts/trex_multi_entity.py:17-32 | the nested loop over documents and triples computes `FilterTriples` of all triples in order |
| TrexMultiEntity.Get | scripts/trex_multi_entity.py:57 | a lookup finds the key's entry, or none when no entry has the key |
| TrexMultiEntity.Put | scripts/trex_multi_entity.py:57 | a write sets the key, leaves every other key, and appends only a new key |
| TrexMultiEntity.Bump | scripts/trex_multi_entity.py:57 | `+= 1` on a defaultdict adds one to that key's count and changes no other |
| TrexMultiEntity.TotalBump | scripts/trex_multi_entity.py:57-59 | an increment adds one to the sum of the counts |
| TrexMultiEntity.BumpedConsistent | scripts/trex_multi_entity.py:57-59 | after one more fact, each label counter of a pair sums to its fact count |
| TrexMultiEntity.AddFactWellFormed | scripts/trex_multi_entity.py:56-59 | one fact keeps every pair's counters consistent |
| TrexMultiEntity.AddFactCounts | scripts/trex_multi_entity.py:56-59 | one fact adds one to its pair's total and to its two labels' counts, and leaves every other pair alone |
| TrexMultiEntity.AddAllCounts | scripts/trex_multi_entity.py:56-59 | after a run of facts, a pair's total is the number of its facts |
| TrexMultiEntity.AddAllSubjectLabels | scripts/trex_multi_entity.py:56-57 | after a run of facts, a subject label's count is the number of the pair's facts with that label |
| TrexMultiEntity.AddAllWellFormed | scripts/trex_multi_entity.py:49-59 | after a run of facts, every pair's counters are consistent |
| TrexMultiEntity.Tally.constructor | scripts/trex_multi_entity.py:49-50 | the tally starts empty |
| TrexMultiEntity.Tally.Add | scripts/trex_multi_entity.py:57-59 | the three increments of one fact update the tally in place as `AddFact` and keep it consistent |
| TrexMultiEntity.Gen | scripts/trex_multi_entity.py:51-59 | the counting loop builds the tally `AddAll` specifies |
| TrexMultiEntity.FirstMax | scripts/trex_multi_entity.py:63 | the position chosen has the highest count, and every earlier one a lower count |
| TrexMultiEntity.Mode | scripts/trex_multi_entity.py:63-64 | an empty counter has no first item (index error); otherwise the label chosen has a count no other label exceeds, and every label inserted before it has a smaller count |
| TrexMultiEntity.ModeIsSortedFirst | scripts/trex_multi_entity.py:63-64 | the label chosen is the first item of the counter sorted by decreasing count, as the source computes it |
| TrexMultiEntity.SortByKeyPermutes | scripts/trex_multi_entity.py:62 | sorting is a permutation |
| TrexMultiEntity.SortByKeySorted | scripts/trex_multi_entity.py:62 | after sorting the counts never rise |
| TrexMultiEntity.SortByKeyStable | scripts/trex_multi_entity.py:62 | pairs with equal counts keep their insertion order |
| TrexMultiEntity.RowOf | scripts/trex_multi_entity.py:63-73 | a pair's line has its URIs, its count and its most frequent labels; it fails exactly when a label counter is empty |
| TrexMultiEntity.RowsOf | scripts/trex_multi_entity.py:62-74 | the lines are written exactly when every pair has one, one per pair in order |
| TrexMultiEntity.RelationRows | scripts/trex_multi_entity.py:60-74 | for a consistent tally, every pair of a relation is written, one line each, with counts never rising |
| TrexMultiEntity.WriteRelation | scripts/trex_multi_entity.py:61-74 | the writing loop of one relation computes `RowsOf` of the sorted pairs |

## Left out

- Files, JSON decoding, `os.walk`, `argparse`, `logging`, `tqdm`, `uuid` and
  the plot. The lines of the article and entity-label files, the decoded
  triples and the facts of a relation are inputs.
- The language model, the tokenizer and the tensors. The model's predicted
  tokens are inputs to `Probe.Score`. The tokenizer's unknown-token test is
  an abstract predicate.
- Choosing the best number of masks, `probe.py:183-203`, and the
  prediction log. That code works on floats and tensors.
- The inflection engine `unimorph_inflect`. It is an abstract function from
  (lemma, features, language) to candidate forms.
- Unicode character names, `isalpha` and case. These are abstract
  per-character predicates. `str.isupper` is modelled from them.
- `PromptEL.normalize`, `prompt.py:228-231`. It needs Unicode
  decomposition and case folding, which the model does not have.
- `load_entity_gender`. That function is not part of this model. The
  entity-gender table is a total function from URI to gender string, so a
  missing entity is not modelled.
- A `None` gender passed to `fill_x`/`fill_y` is not modelled. Gender is
  always a string. The Greek `fill_x` and `fill_y` (`prompt.py:78`,
  `prompt.py:150`) and the Russian `fill_x` (`prompt.py:259`, for genders
  other than none) map it, so anything other than male, female or none is
  a missing key there. The default `Prompt` ignores gender, and the
  Russian `fill_y` passes the raw string into its gender words.
- The URI parameters of `fill_x` and `fill_y`. No variant reads them.
- The per-relation `try`/`except`, `probe.py:113` and `probe.py:221-224`.
  Any failure of one relation is printed and the next relation is probed.
  The model returns that failure as the relation's `Err` result.
- The template lookup in the prompt table, `probe.py:114`. The template is
  an input.
- The `--disable_inflection` switch, `probe.py:94`. It passes a boolean
  where a string of slot letters is expected, and `set()` of a boolean
  raises. The model's settings hold the set of slot letters directly.
- Render.FromLang: the default `disable_inflection=False` of the Greek and
  Russian constructors (`prompt.py:67`, `prompt.py:253`) is not modelled.
  It reaches `set(False)` at `prompt.py:39`, which raises before any file is
  read. The model always takes an explicit set of slot letters, so it does
  not show that failure.
- The order in which `pid2facts.items()` visits relations. Each relation
  is written on its own by `TrexMultiEntity.WriteRelation`, and its output
  does not depend on the other relations.
- Laziness of the `filter_by_relations` generator. A URI without `/` raises
  on the first bad triple, and the run then aborts. So the model returns
  the error instead of the facts yielded before it.
- The `sample` task of `trex_multi_entity.py`. It is random sampling.
