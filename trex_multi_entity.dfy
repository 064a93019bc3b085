/** The `gen` task of scripts/trex_multi_entity.py: triples of the T-REx
    dump are filtered to known relations, and for every relation and every
    (subject, object) pair the surface forms are tallied; each pair is then
    written out with its most frequent labels, most frequent pairs first. */
module TrexMultiEntity {
  import opened Wrappers
  import opened Text

  // ---------------------------------------------------------------------------
  // filter_by_relations (scripts/trex_multi_entity.py:17-32)

  /** One field of a dump triple: its URI and its surface form. */
  datatype Field = Field(uri: string, surfaceform: string)

  /** A triple of the dump: its `subject`, `predicate` and `object` fields. */
  datatype Triple = Triple(subj: Field, pred: Field, obj: Field)

  /** A field reduced to its identifier and its label (its surface form). */
  datatype Entry = Entry(id: string, form: string)

  /** The subject, predicate and object entries of a triple, in that order. */
  datatype Fact = Fact(sub: Entry, pred: Entry, obj: Entry)

  /** `uri.rsplit('/', 1)[1]`: a URI without a `/` splits into one part, so
      taking the second is an index error. */
  function Ident(uri: string): (r: Result<string>)
    ensures r.Err? <==> '/' !in uri
    ensures r.Err? ==> r.error == IndexOutOfRange
    ensures r.Ok? ==> '/' !in r.value
  {
    if '/' !in uri then Err(IndexOutOfRange)
    else Ok(RSplitOnce(uri, '/').value.1)
  }

  /** The identifier is what follows the last `/`, whatever the URI's prefix
      holds. */
  lemma IdentAfterLastSlash(prefix: string, id: string)
    requires '/' !in id
    ensures Ident(prefix + "/" + id) == Ok(id)
  {
    var uri := prefix + "/" + id;
    assert uri[|prefix|] == '/';
    var parts := RSplitOnce(uri, '/').value;
    assert parts.1 == uri[|uri| - |parts.1|..] == id;
  }

  /** The `fact` list of one triple, built subject, predicate, object; the
      first URI without a `/` raises. */
  function FactOf(t: Triple): (r: Result<Fact>)
    ensures r.Err? ==> r.error == IndexOutOfRange
  {
    var s := Ident(t.subj.uri);
    var p := Ident(t.pred.uri);
    var o := Ident(t.obj.uri);
    if s.Err? || p.Err? || o.Err? then Err(IndexOutOfRange)
    else Ok(Fact(Entry(s.value, t.subj.surfaceform), Entry(p.value, t.pred.surfaceform), Entry(o.value, t.obj.surfaceform)))
  }

  /** A triple gives a fact exactly when all three of its URIs hold a `/`,
      and the fact holds what follows the last `/` of each. */
  lemma FactOfParts(t: Triple)
    ensures FactOf(t).Ok? <==> '/' in t.subj.uri && '/' in t.pred.uri && '/' in t.obj.uri
    ensures FactOf(t).Ok? ==>
              && FactOf(t).value.sub == Entry(Ident(t.subj.uri).value, t.subj.surfaceform)
              && FactOf(t).value.pred == Entry(Ident(t.pred.uri).value, t.pred.surfaceform)
              && FactOf(t).value.obj == Entry(Ident(t.obj.uri).value, t.obj.surfaceform)
  {
  }

  /** `s.startswith(c)` for one character. */
  predicate StartsWith(s: string, c: char) {
    |s| > 0 && s[0] == c
  }

  /** The filter: a property predicate between two items, of a relation we
      probe. */
  predicate Keep(f: Fact, relations: set<string>) {
    && StartsWith(f.pred.id, 'P')
    && StartsWith(f.sub.id, 'Q')
    && StartsWith(f.obj.id, 'Q')
    && f.pred.id in relations
  }

  /** Every item parsed in order; the first item that fails aborts the run
      with its error. */
  function ParseAll<A, B>(xs: seq<A>, parse: A -> Result<B>): (r: Result<seq<B>>)
    ensures r.Ok? <==> forall i :: 0 <= i < |xs| ==> parse(xs[i]).Ok?
    ensures r.Err? ==> exists i :: && 0 <= i < |xs| && parse(xs[i]) == Err(r.error)
                                   && forall j :: 0 <= j < i ==> parse(xs[j]).Ok?
    ensures r.Ok? ==> |r.value| == |xs| && forall i :: 0 <= i < |xs| ==> parse(xs[i]) == Ok(r.value[i])
    decreases |xs|
  {
    if |xs| == 0 then Ok([])
    else
      assert forall i :: 0 <= i < |xs| - 1 ==> xs[..|xs| - 1][i] == xs[i];
      var earlier :- ParseAll(xs[..|xs| - 1], parse);
      var y :- parse(xs[|xs| - 1]);
      Ok(earlier + [y])
  }

  /** Parsing one more item. */
  lemma ParseAllSnoc<A, B>(xs: seq<A>, x: A, parse: A -> Result<B>)
    ensures ParseAll(xs + [x], parse)
         == if ParseAll(xs, parse).Err? then ParseAll(xs, parse)
            else match parse(x)
              case Err(e) => Err(e)
              case Ok(y) => Ok(ParseAll(xs, parse).value + [y])
  {
    assert (xs + [x])[..|xs|] == xs;
  }

  /** Parsing a concatenation parses its parts. */
  lemma {:induction false} ParseAllAppend<A, B>(a: seq<A>, b: seq<A>, parse: A -> Result<B>)
    requires ParseAll(a + b, parse).Ok?
    ensures ParseAll(a, parse).Ok? && ParseAll(b, parse).Ok?
    ensures ParseAll(a + b, parse).value == ParseAll(a, parse).value + ParseAll(b, parse).value
    decreases |b|
  {
    if |b| == 0 {
      assert a + b == a;
    } else {
      var init := b[..|b| - 1];
      var last := b[|b| - 1];
      assert a + b == (a + init) + [last];
      assert b == init + [last];
      ParseAllSnoc(a + init, last, parse);
      ParseAllSnoc(init, last, parse);
      ParseAllAppend(a, init, parse);
    }
  }

  /** Parsing the first `t + 1` items of `doc` after `prior`. */
  lemma ParseAllStep<A, B>(prior: seq<A>, doc: seq<A>, t: nat, parse: A -> Result<B>)
    requires t < |doc|
    ensures ParseAll(prior + doc[..t + 1], parse)
         == if ParseAll(prior + doc[..t], parse).Err? then ParseAll(prior + doc[..t], parse)
            else match parse(doc[t])
              case Err(e) => Err(e)
              case Ok(y) => Ok(ParseAll(prior + doc[..t], parse).value + [y])
  {
    assert prior + doc[..t + 1] == (prior + doc[..t]) + [doc[t]];
    ParseAllSnoc(prior + doc[..t], doc[t], parse);
  }

  /** An item that fails aborts every run it is part of. */
  lemma ParseAllFailsAt<A, B>(prior: seq<A>, doc: seq<A>, t: nat, parse: A -> Result<B>)
    requires t < |doc| && parse(doc[t]).Err?
    ensures ParseAll(prior + doc, parse).Err?
  {
    assert (prior + doc)[|prior| + t] == doc[t];
  }

  /** Once an item aborts a prefix, it aborts the whole run. */
  lemma ParseAllPrefixFails<A, B>(xs: seq<A>, n: nat, parse: A -> Result<B>)
    requires n <= |xs| && ParseAll(xs[..n], parse).Err?
    ensures ParseAll(xs, parse).Err?
  {
    var i :| 0 <= i < n && parse(xs[..n][i]).Err?;
    assert xs[..n][i] == xs[i];
  }

  /** The facts that pass the filter, in order. */
  function KeepOnly(fs: seq<Fact>, relations: set<string>): (r: seq<Fact>)
    ensures forall f :: f in r <==> f in fs && Keep(f, relations)
    decreases |fs|
  {
    if |fs| == 0 then []
    else
      var f := fs[|fs| - 1];
      assert fs == fs[..|fs| - 1] + [f];
      KeepOnly(fs[..|fs| - 1], relations) + if Keep(f, relations) then [f] else []
  }

  /** One more fact is kept after the others exactly when it passes. */
  lemma KeepOnlySnoc(fs: seq<Fact>, f: Fact, relations: set<string>)
    ensures KeepOnly(fs + [f], relations) == KeepOnly(fs, relations) + if Keep(f, relations) then [f] else []
  {
    assert (fs + [f])[..|fs|] == fs;
  }

  /** Filtering keeps the input order: the kept facts of a concatenation are
      those of the first part followed by those of the second. */
  lemma {:induction false} KeepOnlyAppend(a: seq<Fact>, b: seq<Fact>, relations: set<string>)
    ensures KeepOnly(a + b, relations) == KeepOnly(a, relations) + KeepOnly(b, relations)
    decreases |b|
  {
    if |b| == 0 {
      assert a + b == a;
    } else {
      var init := b[..|b| - 1];
      assert (a + b)[..|a + b| - 1] == a + init;
      KeepOnlyAppend(a, init, relations);
    }
  }

  /** The facts `filter_by_relations` yields for a run of triples; a URI
      without a `/` aborts the run. */
  function FilterTriples(ts: seq<Triple>, relations: set<string>): (r: Result<seq<Fact>>)
    ensures r.Ok? <==> forall i :: 0 <= i < |ts| ==> FactOf(ts[i]).Ok?
    ensures r.Err? ==> r.error == IndexOutOfRange
    ensures r.Ok? ==> forall f :: f in r.value ==> Keep(f, relations)
  {
    var facts :- ParseAll(ts, FactOf);
    Ok(KeepOnly(facts, relations))
  }

  /** A fact is yielded exactly when some triple gives it and it passes the
      filter. */
  lemma FilterTriplesMembers(ts: seq<Triple>, relations: set<string>, f: Fact)
    requires FilterTriples(ts, relations).Ok?
    ensures f in FilterTriples(ts, relations).value <==>
              Keep(f, relations) && exists i :: 0 <= i < |ts| && FactOf(ts[i]) == Ok(f)
  {
    var facts := ParseAll(ts, FactOf).value;
    if Keep(f, relations) && exists i :: 0 <= i < |ts| && FactOf(ts[i]) == Ok(f) {
      var i :| 0 <= i < |ts| && FactOf(ts[i]) == Ok(f);
      assert facts[i] == f;
    }
  }

  /** Filtering keeps the order of the triples: the facts of a concatenation
      are the facts of the first part followed by those of the second. */
  lemma FilterTriplesAppend(a: seq<Triple>, b: seq<Triple>, relations: set<string>)
    requires FilterTriples(a + b, relations).Ok?
    ensures FilterTriples(a, relations).Ok? && FilterTriples(b, relations).Ok?
    ensures FilterTriples(a + b, relations).value == FilterTriples(a, relations).value + FilterTriples(b, relations).value
  {
    ParseAllAppend(a, b, FactOf);
    KeepOnlyAppend(ParseAll(a, FactOf).value, ParseAll(b, FactOf).value, relations);
  }

  /** The triples of every document, in order. */
  function Concat(docs: seq<seq<Triple>>): seq<Triple>
    decreases |docs|
  {
    if |docs| == 0 then [] else Concat(docs[..|docs| - 1]) + docs[|docs| - 1]
  }

  /** One more document adds its triples at the end. */
  lemma ConcatStep(docs: seq<seq<Triple>>, d: nat)
    requires d < |docs|
    ensures Concat(docs[..d + 1]) == Concat(docs[..d]) + docs[d]
  {
    assert docs[..d + 1][..d] == docs[..d];
  }

  /** The triples of a prefix of the documents are a prefix of all triples. */
  lemma {:induction false} ConcatPrefix(docs: seq<seq<Triple>>, n: nat)
    requires n <= |docs|
    ensures |Concat(docs[..n])| <= |Concat(docs)|
    ensures Concat(docs[..n]) == Concat(docs)[..|Concat(docs[..n])|]
    decreases |docs|
  {
    if n < |docs| {
      assert docs[..|docs| - 1][..n] == docs[..n];
      ConcatPrefix(docs[..|docs| - 1], n);
    } else {
      assert docs[..n] == docs;
    }
  }

  /** The inner loop of `filter_by_relations`: the triples of one document,
      after the triples `prior` of the documents before it. */
  method FilterDocument(doc: seq<Triple>, relations: set<string>, ghost prior: seq<Triple>, out: seq<Fact>)
    returns (r: Result<seq<Fact>>)
    requires ParseAll(prior, FactOf).Ok? && out == KeepOnly(ParseAll(prior, FactOf).value, relations)
    ensures r.Err? <==> ParseAll(prior + doc, FactOf).Err?
    ensures r.Err? ==> r.error == IndexOutOfRange
    ensures r.Ok? ==> r.value == KeepOnly(ParseAll(prior + doc, FactOf).value, relations)
  {
    ghost var facts := ParseAll(prior, FactOf).value;
    var kept := out;
    assert prior + doc[..0] == prior;
    for t := 0 to |doc|
      invariant ParseAll(prior + doc[..t], FactOf) == Ok(facts)
      invariant kept == KeepOnly(facts, relations)
    {
      ParseAllStep(prior, doc, t, FactOf);
      var fact := FactOf(doc[t]);
      if fact.Err? {
        ParseAllFailsAt(prior, doc, t, FactOf);
        return Err(IndexOutOfRange);
      }
      KeepOnlySnoc(facts, fact.value, relations);
      facts := facts + [fact.value];
      if Keep(fact.value, relations) {
        kept := kept + [fact.value];
      }
    }
    assert doc[..|doc|] == doc;
    r := Ok(kept);
  }

  /** `filter_by_relations` over the documents of a file, document by
      document. */
  method FilterByRelations(docs: seq<seq<Triple>>, relations: set<string>) returns (r: Result<seq<Fact>>)
    ensures r == FilterTriples(Concat(docs), relations)
  {
    var out: seq<Fact> := [];
    for d := 0 to |docs|
      invariant ParseAll(Concat(docs[..d]), FactOf).Ok?
      invariant out == KeepOnly(ParseAll(Concat(docs[..d]), FactOf).value, relations)
    {
      ConcatStep(docs, d);
      var next := FilterDocument(docs[d], relations, Concat(docs[..d]), out);
      if next.Err? {
        ConcatPrefix(docs, d + 1);
        ParseAllPrefixFails(Concat(docs), |Concat(docs[..d + 1])|, FactOf);
        return Err(IndexOutOfRange);
      }
      out := next.value;
    }
    assert docs[..|docs|] == docs;
    r := Ok(out);
  }

  // ---------------------------------------------------------------------------
  // Insertion-ordered counters (Python dictionaries keep insertion order)

  /** A dictionary as its items in insertion order. */
  type Dict<K, V> = seq<(K, V)>

  /** `d.get(k)`. */
  function Get<K(==), V>(d: Dict<K, V>, k: K): (r: Option<V>)
    ensures r.None? <==> forall i :: 0 <= i < |d| ==> d[i].0 != k
    ensures r.Some? ==> exists i :: 0 <= i < |d| && d[i] == (k, r.value)
    decreases |d|
  {
    if |d| == 0 then None
    else if d[0].0 == k then Some(d[0].1)
    else
      assert forall i :: 0 <= i < |d| - 1 ==> d[1..][i] == d[i + 1];
      Get(d[1..], k)
  }

  /** `d[k] = v`: an existing key keeps its place, a new one goes last. */
  function Put<K(==, !new), V>(d: Dict<K, V>, k: K, v: V): (r: Dict<K, V>)
    ensures Get(r, k) == Some(v)
    ensures forall k' :: k' != k ==> Get(r, k') == Get(d, k')
    ensures |r| == if Get(d, k).Some? then |d| else |d| + 1
    ensures forall i :: 0 <= i < |r| ==> r[i] == (k, v) || r[i] in d
    decreases |d|
  {
    if |d| == 0 then [(k, v)]
    else if d[0].0 == k then [(k, v)] + d[1..]
    else [d[0]] + Put(d[1..], k, v)
  }

  /** `counter[k]` of a `defaultdict(lambda: 0)`. */
  function CountOf<K(==)>(d: Dict<K, nat>, k: K): nat {
    match Get(d, k)
    case Some(n) => n
    case None => 0
  }

  /** `counter[k] += 1`. */
  function Bump<K(==, !new)>(d: Dict<K, nat>, k: K): (r: Dict<K, nat>)
    ensures CountOf(r, k) == CountOf(d, k) + 1
    ensures forall k' :: k' != k ==> CountOf(r, k') == CountOf(d, k')
  {
    Put<K, nat>(d, k, CountOf(d, k) + 1)
  }

  /** The sum of the counts. */
  function Total<K>(d: Dict<K, nat>): nat
    decreases |d|
  {
    if |d| == 0 then 0 else d[0].1 + Total(d[1..])
  }

  /** Overwriting a count changes the sum by the difference. */
  lemma {:induction false} TotalPut<K(!new)>(d: Dict<K, nat>, k: K, v: nat)
    ensures Total(Put(d, k, v)) + CountOf(d, k) == Total(d) + v
    decreases |d|
  {
    if |d| > 0 && d[0].0 != k {
      TotalPut(d[1..], k, v);
      assert Put(d, k, v)[1..] == Put(d[1..], k, v);
    } else if |d| > 0 {
      assert Put(d, k, v)[1..] == d[1..];
    }
  }

  /** An increment adds one to the sum. */
  lemma TotalBump<K(!new)>(d: Dict<K, nat>, k: K)
    ensures Total(Bump(d, k)) == Total(d) + 1
  {
    TotalPut(d, k, CountOf(d, k) + 1);
  }

  /** A positive sum needs at least one item. */
  lemma TotalPositive<K>(d: Dict<K, nat>)
    requires Total(d) > 0
    ensures |d| > 0
  {
  }

  // ---------------------------------------------------------------------------
  // The gen task's tally (scripts/trex_multi_entity.py:49-59)

  /** The three counters of one (subject, object) pair: subject labels,
      object labels, and the number of facts. */
  datatype Counts = Counts(subLabels: Dict<string, nat>, objLabels: Dict<string, nat>, total: nat)

  /** A pair's counters agree: each label counter sums to the number of
      facts, and a pair that was recorded has been seen at least once. */
  predicate Consistent(c: Counts) {
    Total(c.subLabels) == c.total && Total(c.objLabels) == c.total && c.total > 0
  }

  /** `pid2facts[pu][(su, ou)]` before the increments. */
  function CountsOf(entries: Dict<(string, string), Counts>, key: (string, string)): Counts {
    match Get(entries, key)
    case Some(c) => c
    case None => Counts([], [], 0)
  }

  /** `pid2facts[pu]`. */
  function EntriesOf(m: map<string, Dict<(string, string), Counts>>, pid: string): Dict<(string, string), Counts> {
    if pid in m then m[pid] else []
  }

  /** A pair's counters after one more of its facts. */
  function Bumped(c: Counts, f: Fact): Counts {
    Counts(Bump(c.subLabels, f.sub.form), Bump(c.objLabels, f.obj.form), c.total + 1)
  }

  /** One more fact keeps a pair's counters consistent, and starts a new
      pair's consistently. */
  lemma BumpedConsistent(c: Counts, f: Fact)
    requires Consistent(c) || c == Counts([], [], 0)
    ensures Consistent(Bumped(c, f))
  {
    TotalBump(c.subLabels, f.sub.form);
    TotalBump(c.objLabels, f.obj.form);
  }

  /** The three increments for one fact. */
  function AddFact(m: map<string, Dict<(string, string), Counts>>, f: Fact): map<string, Dict<(string, string), Counts>> {
    var entries := EntriesOf(m, f.pred.id);
    var key := (f.sub.id, f.obj.id);
    m[f.pred.id := Put(entries, key, Bumped(CountsOf(entries, key), f))]
  }

  /** The tally after a run of facts. */
  function AddAll(m: map<string, Dict<(string, string), Counts>>, facts: seq<Fact>): map<string, Dict<(string, string), Counts>>
    decreases |facts|
  {
    if |facts| == 0 then m else AddFact(AddAll(m, facts[..|facts| - 1]), facts[|facts| - 1])
  }

  /** Every pair of every relation has consistent counters. */
  ghost predicate WellFormed(m: map<string, Dict<(string, string), Counts>>) {
    forall pid, i :: pid in m && 0 <= i < |m[pid]| ==> Consistent(m[pid][i].1)
  }

  /** One fact keeps every pair's counters consistent. */
  lemma AddFactWellFormed(m: map<string, Dict<(string, string), Counts>>, f: Fact)
    requires WellFormed(m)
    ensures WellFormed(AddFact(m, f))
  {
    var entries := EntriesOf(m, f.pred.id);
    var k := (f.sub.id, f.obj.id);
    var c := CountsOf(entries, k);
    if Get(entries, k).Some? {
      var j :| 0 <= j < |entries| && entries[j] == (k, c);
      assert Consistent(entries[j].1);
    }
    BumpedConsistent(c, f);
    var entries': Dict<(string, string), Counts> := Put(entries, k, Bumped(c, f));
    var m': map<string, Dict<(string, string), Counts>> := AddFact(m, f);
    assert m' == m[f.pred.id := entries'];
    forall p: string, i: int | p in m' && 0 <= i < |m'[p]| ensures Consistent(m'[p][i].1) {
      if p == f.pred.id && entries'[i] != (k, Bumped(c, f)) {
        var j :| 0 <= j < |entries| && entries[j] == entries'[i];
        assert Consistent(entries[j].1);
      }
    }
  }

  /** One fact adds exactly one to its pair's total and to the counts of its
      two labels, and leaves every other pair alone. */
  lemma AddFactCounts(m: map<string, Dict<(string, string), Counts>>, f: Fact,
                      pid: string, key: (string, string))
    ensures var before := CountsOf(EntriesOf(m, pid), key);
            var after := CountsOf(EntriesOf(AddFact(m, f), pid), key);
            if pid == f.pred.id && key == (f.sub.id, f.obj.id) then
              && after.total == before.total + 1
              && (forall l :: CountOf(after.subLabels, l) == CountOf(before.subLabels, l) + (if l == f.sub.form then 1 else 0))
              && (forall l :: CountOf(after.objLabels, l) == CountOf(before.objLabels, l) + (if l == f.obj.form then 1 else 0))
            else after == before
  {
    var before := CountsOf(EntriesOf(m, pid), key);
    var after := CountsOf(EntriesOf(AddFact(m, f), pid), key);
    if pid == f.pred.id && key == (f.sub.id, f.obj.id) {
      assert after == Bumped(before, f);
    } else if pid == f.pred.id {
      assert Get(EntriesOf(AddFact(m, f), pid), key) == Get(EntriesOf(m, pid), key);
    }
  }

  /** The number of facts of a relation about a pair. */
  function Occurrences(facts: seq<Fact>, pid: string, key: (string, string)): nat
    decreases |facts|
  {
    if |facts| == 0 then 0
    else
      var f := facts[|facts| - 1];
      Occurrences(facts[..|facts| - 1], pid, key) + if f.pred.id == pid && (f.sub.id, f.obj.id) == key then 1 else 0
  }

  /** The number of those facts whose subject label is `l`. */
  function SubjectLabelled(facts: seq<Fact>, pid: string, key: (string, string), l: string): nat
    decreases |facts|
  {
    if |facts| == 0 then 0
    else
      var f := facts[|facts| - 1];
      SubjectLabelled(facts[..|facts| - 1], pid, key, l)
      + if f.pred.id == pid && (f.sub.id, f.obj.id) == key && f.sub.form == l then 1 else 0
  }

  /** After a run of facts, each pair's total is the number of its facts. */
  lemma {:induction false} AddAllCounts(facts: seq<Fact>, pid: string, key: (string, string))
    ensures CountsOf(EntriesOf(AddAll(map[], facts), pid), key).total == Occurrences(facts, pid, key)
    decreases |facts|
  {
    if |facts| > 0 {
      var init := facts[..|facts| - 1];
      AddAllCounts(init, pid, key);
      AddFactCounts(AddAll(map[], init), facts[|facts| - 1], pid, key);
    }
  }

  /** After a run of facts, each subject label's count in a pair is the
      number of the pair's facts with that label. */
  lemma {:induction false} AddAllSubjectLabels(facts: seq<Fact>, pid: string, key: (string, string), l: string)
    ensures CountOf(CountsOf(EntriesOf(AddAll(map[], facts), pid), key).subLabels, l)
         == SubjectLabelled(facts, pid, key, l)
    decreases |facts|
  {
    if |facts| > 0 {
      var init := facts[..|facts| - 1];
      AddAllSubjectLabels(init, pid, key, l);
      AddFactCounts(AddAll(map[], init), facts[|facts| - 1], pid, key);
    }
  }

  /** After a run of facts every pair's counters are consistent. */
  lemma {:induction false} AddAllWellFormed(facts: seq<Fact>)
    ensures WellFormed(AddAll(map[], facts))
    decreases |facts|
  {
    if |facts| > 0 {
      var init := facts[..|facts| - 1];
      AddAllWellFormed(init);
      AddFactWellFormed(AddAll(map[], init), facts[|facts| - 1]);
    }
  }

  /** `pid2facts`, updated in place fact by fact. */
  class Tally {
    var facts: map<string, Dict<(string, string), Counts>>

    ghost predicate Valid()
      reads this
    {
      WellFormed(facts)
    }

    constructor ()
      ensures Valid() && facts == map[]
    {
      facts := map[];
    }

    /** The three `+= 1` of one fact. */
    method Add(f: Fact)
      requires Valid()
      modifies this
      ensures Valid()
      ensures facts == AddFact(old(facts), f)
    {
      AddFactWellFormed(facts, f);
      var entries := EntriesOf(facts, f.pred.id);
      var key := (f.sub.id, f.obj.id);
      var c := CountsOf(entries, key);
      c := c.(subLabels := Bump(c.subLabels, f.sub.form));
      c := c.(objLabels := Bump(c.objLabels, f.obj.form));
      c := c.(total := c.total + 1);
      assert c == Bumped(CountsOf(entries, key), f);
      facts := facts[f.pred.id := Put(entries, key, c)];
    }
  }

  /** The counting loop of the `gen` task over the facts of every file. */
  method Gen(facts: seq<Fact>) returns (tally: Tally)
    ensures fresh(tally) && tally.Valid()
    ensures tally.facts == AddAll(map[], facts)
  {
    tally := new Tally();
    for n := 0 to |facts|
      invariant tally.Valid()
      invariant tally.facts == AddAll(map[], facts[..n])
    {
      assert facts[..n + 1][..n] == facts[..n];
      tally.Add(facts[n]);
    }
    assert facts[..|facts|] == facts;
  }

  // ---------------------------------------------------------------------------
  // The output of one relation (scripts/trex_multi_entity.py:60-74)

  /** The position of the first item with the highest count. */
  function FirstMax<K>(d: Dict<K, nat>): (i: nat)
    requires |d| > 0
    ensures i < |d|
    ensures forall j :: 0 <= j < |d| ==> d[j].1 <= d[i].1
    ensures forall j :: 0 <= j < i ==> d[j].1 < d[i].1
    decreases |d|
  {
    if |d| == 1 then 0
    else
      var k := FirstMax(d[..|d| - 1]);
      assert forall j :: 0 <= j < |d| - 1 ==> d[..|d| - 1][j] == d[j];
      if d[|d| - 1].1 > d[k].1 then |d| - 1 else k
  }

  /** `sorted(counter.items(), key=lambda x: -x[1])[0][0]`: the sort is
      stable, so the label chosen is the first one inserted among those with
      the highest count; an empty counter has no first item. */
  function Mode(d: Dict<string, nat>): (r: Result<string>)
    ensures r.Err? <==> |d| == 0
    ensures r.Err? ==> r.error == IndexOutOfRange
    ensures r.Ok? ==> exists i :: 0 <= i < |d| && d[i].0 == r.value
                        && (forall j :: 0 <= j < |d| ==> d[j].1 <= d[i].1)
                        && (forall j :: 0 <= j < i ==> d[j].1 < d[i].1)
  {
    if |d| == 0 then Err(IndexOutOfRange) else Ok(d[FirstMax(d)].0)
  }

  /** One output line, less its `uuid`. */
  datatype Row = Row(pid: string, subUri: string, subLabel: string, objUri: string, objLabel: string, count: nat)

  type Pair = ((string, string), Counts)

  /** The number of facts of a pair: the key its relation's lines are sorted
      by. */
  function PairCount(e: Pair): nat {
    e.1.total
  }

  /** The keys never rise along `s`. */
  predicate NonIncreasing<T>(s: seq<T>, key: T -> nat) {
    forall i, j :: 0 <= i < j < |s| ==> key(s[i]) >= key(s[j])
  }

  /** Inserting behind every item whose key is at least as large. */
  function InsertByKey<T>(e: T, s: seq<T>, key: T -> nat): seq<T>
    decreases |s|
  {
    if |s| == 0 then [e]
    else if key(s[0]) >= key(e) then [s[0]] + InsertByKey(e, s[1..], key)
    else [e] + s
  }

  /** Inserting adds the item and loses none. */
  lemma {:induction false} InsertByKeyPermutes<T>(e: T, s: seq<T>, key: T -> nat)
    ensures multiset(InsertByKey(e, s, key)) == multiset(s) + multiset{e}
    decreases |s|
  {
    if |s| > 0 && key(s[0]) >= key(e) {
      InsertByKeyPermutes(e, s[1..], key);
      assert s == [s[0]] + s[1..];
    }
  }

  /** Inserting into a run whose keys never rise keeps them from rising. */
  lemma {:induction false} InsertByKeySorted<T>(e: T, s: seq<T>, key: T -> nat)
    requires NonIncreasing(s, key)
    ensures NonIncreasing(InsertByKey(e, s, key), key)
    decreases |s|
  {
    if |s| > 0 && key(s[0]) >= key(e) {
      var rest := InsertByKey(e, s[1..], key);
      InsertByKeySorted(e, s[1..], key);
      InsertByKeyPermutes(e, s[1..], key);
      forall x | x in rest ensures key(s[0]) >= key(x) {
        assert x in multiset(rest);
        if x != e {
          assert x in multiset(s[1..]);
        }
      }
    }
  }

  /** `sorted(items, key=lambda x: -key(x))`: Python's stable sort, as an
      insertion sort. */
  function SortByKey<T>(s: seq<T>, key: T -> nat): seq<T>
    decreases |s|
  {
    if |s| == 0 then [] else InsertByKey(s[|s| - 1], SortByKey(s[..|s| - 1], key), key)
  }

  /** The sort is a permutation. */
  lemma {:induction false} SortByKeyPermutes<T>(s: seq<T>, key: T -> nat)
    ensures multiset(SortByKey(s, key)) == multiset(s)
    decreases |s|
  {
    if |s| > 0 {
      SortByKeyPermutes(s[..|s| - 1], key);
      InsertByKeyPermutes(s[|s| - 1], SortByKey(s[..|s| - 1], key), key);
      assert s == s[..|s| - 1] + [s[|s| - 1]];
    }
  }

  /** The sort puts larger keys first. */
  lemma {:induction false} SortByKeySorted<T>(s: seq<T>, key: T -> nat)
    ensures NonIncreasing(SortByKey(s, key), key)
    decreases |s|
  {
    if |s| > 0 {
      SortByKeySorted(s[..|s| - 1], key);
      InsertByKeySorted(s[|s| - 1], SortByKey(s[..|s| - 1], key), key);
    }
  }

  /** The items with a given key, in order. */
  function WithKey<T>(s: seq<T>, key: T -> nat, t: nat): seq<T>
    decreases |s|
  {
    if |s| == 0 then [] else (if key(s[0]) == t then [s[0]] else []) + WithKey(s[1..], key, t)
  }

  lemma {:induction false} WithKeyAppend<T>(a: seq<T>, b: seq<T>, key: T -> nat, t: nat)
    ensures WithKey(a + b, key, t) == WithKey(a, key, t) + WithKey(b, key, t)
    decreases |a|
  {
    if |a| > 0 {
      assert (a + b)[1..] == a[1..] + b;
      WithKeyAppend(a[1..], b, key, t);
    } else {
      assert a + b == b;
    }
  }

  /** No item of a run whose keys never rise, and whose first key is below
      `t`, has key `t`. */
  lemma {:induction false} WithKeyNone<T>(s: seq<T>, key: T -> nat, t: nat)
    requires NonIncreasing(s, key) && (|s| > 0 ==> key(s[0]) < t)
    ensures WithKey(s, key, t) == []
    decreases |s|
  {
    if |s| > 0 {
      WithKeyNone(s[1..], key, t);
    }
  }

  /** An item placed before a sorted run whose first key is below its own
      comes after every item of the run with the same key, as there is none. */
  lemma InsertFrontTies<T>(e: T, s: seq<T>, key: T -> nat, t: nat)
    requires NonIncreasing(s, key) && (|s| > 0 ==> key(s[0]) < key(e))
    ensures WithKey([e] + s, key, t) == WithKey(s, key, t) + WithKey([e], key, t)
  {
    WithKeyAppend([e], s, key, t);
    if key(e) == t {
      WithKeyNone(s, key, t);
    }
  }

  /** An item inserted behind the first item of a run keeps that item in
      front of the ties found in the rest. */
  lemma InsertBehindTies<T>(e: T, s: seq<T>, key: T -> nat, t: nat)
    requires |s| > 0 && key(s[0]) >= key(e)
    requires WithKey(InsertByKey(e, s[1..], key), key, t) == WithKey(s[1..], key, t) + WithKey([e], key, t)
    ensures WithKey(InsertByKey(e, s, key), key, t) == WithKey(s, key, t) + WithKey([e], key, t)
  {
    var rest := InsertByKey(e, s[1..], key);
    var inserted := [s[0]] + rest;
    assert InsertByKey(e, s, key) == inserted;
    var head := if key(s[0]) == t then [s[0]] else [];
    assert inserted[0] == s[0] && inserted[1..] == rest;
    assert WithKey(inserted, key, t) == head + WithKey(rest, key, t);
    assert WithKey(s, key, t) == head + WithKey(s[1..], key, t);
  }

  /** An item inserted into a sorted run comes after every earlier item with
      the same key. */
  lemma {:induction false} InsertKeepsTies<T>(e: T, s: seq<T>, key: T -> nat, t: nat)
    requires NonIncreasing(s, key)
    ensures WithKey(InsertByKey(e, s, key), key, t) == WithKey(s, key, t) + WithKey([e], key, t)
    decreases |s|
  {
    if |s| == 0 {
      assert WithKey(s, key, t) == [];
    } else if key(s[0]) >= key(e) {
      InsertKeepsTies(e, s[1..], key, t);
      InsertBehindTies(e, s, key, t);
    } else {
      InsertFrontTies(e, s, key, t);
    }
  }

  /** The sort is stable: items with equal keys keep their order. */
  lemma {:induction false} SortByKeyStable<T>(s: seq<T>, key: T -> nat, t: nat)
    ensures WithKey(SortByKey(s, key), key, t) == WithKey(s, key, t)
    decreases |s|
  {
    if |s| > 0 {
      var init := s[..|s| - 1];
      SortByKeyStable(init, key, t);
      SortByKeySorted(init, key);
      InsertKeepsTies(s[|s| - 1], SortByKey(init, key), key, t);
      WithKeyAppend(init, [s[|s| - 1]], key, t);
      assert init + [s[|s| - 1]] == s;
    }
  }

  /** The count of a label: the key a label counter is sorted by. */
  function LabelCount(e: (string, nat)): nat {
    e.1
  }

  /** The first item with key `t` is the first of the items with that key. */
  lemma {:induction false} WithKeyFirst<T>(s: seq<T>, key: T -> nat, t: nat, i: nat)
    requires i < |s| && key(s[i]) == t
    requires forall j :: 0 <= j < i ==> key(s[j]) != t
    ensures |WithKey(s, key, t)| > 0 && WithKey(s, key, t)[0] == s[i]
    decreases i
  {
    if i > 0 {
      WithKeyFirst(s[1..], key, t, i - 1);
    }
  }

  /** `Mode` is what the source computes: the first item of the counter
      sorted by decreasing count. */
  lemma ModeIsSortedFirst(d: Dict<string, nat>)
    requires |d| > 0
    ensures |SortByKey(d, LabelCount)| == |d|
    ensures Mode(d) == Ok(SortByKey(d, LabelCount)[0].0)
  {
    var m := FirstMax(d);
    var t := d[m].1;
    var sorted := SortByKey(d, LabelCount);
    SortByKeyPermutes(d, LabelCount);
    SortByKeySorted(d, LabelCount);
    assert |sorted| == |multiset(sorted)| == |multiset(d)| == |d|;
    assert d[m] in multiset(sorted);
    var j :| 0 <= j < |sorted| && sorted[j] == d[m];
    assert sorted[0] in multiset(d);
    var k :| 0 <= k < |d| && d[k] == sorted[0];
    assert LabelCount(sorted[0]) == t;
    WithKeyFirst(sorted, LabelCount, t, 0);
    WithKeyFirst(d, LabelCount, t, m);
    SortByKeyStable(d, LabelCount, t);
  }

  /** The line written for one pair. */
  function RowOf(pid: string, e: Pair): (r: Result<Row>)
    ensures r.Ok? <==> |e.1.subLabels| > 0 && |e.1.objLabels| > 0
    ensures r.Err? ==> r.error == IndexOutOfRange
    ensures r.Ok? ==> r.value.subUri == e.0.0 && r.value.objUri == e.0.1 && r.value.count == e.1.total
    ensures r.Ok? ==> r.value.subLabel == e.1.subLabels[FirstMax(e.1.subLabels)].0
    ensures r.Ok? ==> r.value.objLabel == e.1.objLabels[FirstMax(e.1.objLabels)].0
  {
    var sl :- Mode(e.1.subLabels);
    var ol :- Mode(e.1.objLabels);
    Ok(Row(pid, e.0.0, sl, e.0.1, ol, e.1.total))
  }

  /** The lines written for a run of pairs, in order. */
  function RowsOf(pid: string, es: seq<Pair>): (r: Result<seq<Row>>)
    ensures r.Ok? <==> forall i :: 0 <= i < |es| ==> RowOf(pid, es[i]).Ok?
    ensures r.Err? ==> r.error == IndexOutOfRange
    ensures r.Ok? ==> |r.value| == |es| && forall i :: 0 <= i < |es| ==> RowOf(pid, es[i]) == Ok(r.value[i])
    decreases |es|
  {
    if |es| == 0 then Ok([])
    else
      assert forall i :: 0 <= i < |es| - 1 ==> es[..|es| - 1][i] == es[i];
      var earlier :- RowsOf(pid, es[..|es| - 1]);
      var row :- RowOf(pid, es[|es| - 1]);
      Ok(earlier + [row])
  }

  /** The lines for the first `n + 1` pairs are those for the first `n`
      and the line for pair `n`. */
  lemma RowsOfStep(pid: string, es: seq<Pair>, n: nat)
    requires n < |es|
    ensures RowsOf(pid, es[..n + 1])
         == (var earlier := RowsOf(pid, es[..n]);
             if earlier.Err? then Err(earlier.error)
             else match RowOf(pid, es[n])
                  case Err(e) => Err(e)
                  case Ok(row) => Ok(earlier.value + [row]))
  {
    assert es[..n + 1][..n] == es[..n];
    assert es[..n + 1][n] == es[n];
  }

  /** One pair without a line fails the whole relation. */
  lemma RowsOfFails(pid: string, es: seq<Pair>, i: nat)
    requires i < |es| && RowOf(pid, es[i]).Err?
    ensures RowsOf(pid, es) == Err(IndexOutOfRange)
  {
  }

  /** A well-formed tally's relation is written completely: one line per
      pair, most frequent pairs first, each with its most frequent labels. */
  lemma RelationRows(m: map<string, Dict<(string, string), Counts>>, pid: string)
    requires WellFormed(m) && pid in m
    ensures var sorted := SortByKey(m[pid], PairCount);
            var rows := RowsOf(pid, sorted);
            && rows.Ok? && |rows.value| == |m[pid]|
            && (forall i, j :: 0 <= i < j < |rows.value| ==> rows.value[i].count >= rows.value[j].count)
            && (forall i :: 0 <= i < |rows.value| ==> sorted[i] in m[pid])
  {
    var sorted := SortByKey(m[pid], PairCount);
    SortByKeySorted(m[pid], PairCount);
    SortByKeyPermutes(m[pid], PairCount);
    assert |sorted| == |multiset(sorted)| == |multiset(m[pid])| == |m[pid]|;
    forall i | 0 <= i < |sorted| ensures sorted[i] in m[pid] && RowOf(pid, sorted[i]).Ok? {
      assert sorted[i] in multiset(sorted);
      assert sorted[i] in multiset(m[pid]);
      var j :| 0 <= j < |m[pid]| && m[pid][j] == sorted[i];
      assert Consistent(sorted[i].1);
      TotalPositive(sorted[i].1.subLabels);
      TotalPositive(sorted[i].1.objLabels);
    }
  }

  /** The writing loop of one relation. */
  method WriteRelation(pid: string, entries: Dict<(string, string), Counts>) returns (rows: Result<seq<Row>>)
    ensures rows == RowsOf(pid, SortByKey(entries, PairCount))
  {
    var sorted := SortByKey(entries, PairCount);
    var out: seq<Row> := [];
    for i := 0 to |sorted|
      invariant RowsOf(pid, sorted[..i]) == Ok(out)
    {
      RowsOfStep(pid, sorted, i);
      var row := RowOf(pid, sorted[i]);
      if row.Err? {
        RowsOfFails(pid, sorted, i);
        return Err(IndexOutOfRange);
      }
      out := out + [row.value];
    }
    assert sorted[..|sorted|] == sorted;
    rows := Ok(out);
  }
}
