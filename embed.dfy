/** The pure parts of the embedding script `test_ollama_embed.py`: the
    Qdrant filter built from metadata criteria, the integer, boolean and
    string fields of the text metadata, and the distribution of test types
    over a sample of stored points. Ollama and Qdrant themselves are not
    part of this model. */
module Embedding {
  import opened Wrappers
  import opened Text
  import opened Counting

  /** A JSON-like value of a metadata criterion. A dictionary keeps its
      entries in insertion order, as Python's does. */
  datatype Value =
    | Num(n: int)
    | Str(s: string)
    | Bool(b: bool)
    | List(items: seq<Value>)
    | Dict(entries: seq<Entry>)

  /** One key of a dictionary, with its value. */
  datatype Entry = Entry(name: string, val: Value)

  /** The range operators a dictionary criterion may use. */
  datatype RangeOp = Gte | Lte | Gt | Lt

  function OpName(op: RangeOp): string
  {
    match op
    case Gte => "gte"
    case Lte => "lte"
    case Gt => "gt"
    case Lt => "lt"
  }

  /** The operator an entry's name selects; any other name is ignored. */
  function ParseOp(name: string): (r: Option<RangeOp>)
    ensures r.Some? ==> OpName(r.value) == name
  {
    if name == "gte" then Some(Gte)
    else if name == "lte" then Some(Lte)
    else if name == "gt" then Some(Gt)
    else if name == "lt" then Some(Lt)
    else None
  }

  /** Exactly the four operator names are recognised. */
  lemma ParseOpName(op: RangeOp)
    ensures ParseOp(OpName(op)) == Some(op)
  {
  }

  /** A Qdrant `FieldCondition`: a one-sided range, a `MatchAny` or a `MatchValue`. */
  datatype Condition =
    | Range(key: string, op: RangeOp, bound: Value)
    | MatchAny(key: string, any: seq<Value>)
    | MatchValue(key: string, value: Value)

  /** `models.Filter(must=conditions)`. */
  datatype Filter = Filter(must: seq<Condition>)

  /** The range conditions of the operator entries of a dictionary criterion, in order. */
  function RangeConditions(key: string, ops: seq<Entry>): (r: seq<Condition>)
    ensures |r| <= |ops|
  {
    if ops == [] then []
    else
      var last := ops[|ops| - 1];
      RangeConditions(key, ops[..|ops| - 1])
      + match ParseOp(last.name) { case Some(op) => [Range(key, op, last.val)] case None => [] }
  }

  /** The conditions one criterion contributes. */
  function EntryConditions(key: string, value: Value): seq<Condition>
  {
    match value
    case Dict(ops) => RangeConditions(key, ops)
    case List(items) => [MatchAny(key, items)]
    case _ => [MatchValue(key, value)]
  }

  /** The conditions of all criteria, in iteration order. */
  function FilterConditions(criteria: seq<Entry>): seq<Condition>
  {
    if criteria == [] then []
    else
      var last := criteria[|criteria| - 1];
      FilterConditions(criteria[..|criteria| - 1]) + EntryConditions(last.name, last.val)
  }

  /** `_build_metadata_filter`: no filter when there is no condition. */
  method BuildMetadataFilter(criteria: seq<Entry>) returns (r: Option<Filter>)
    ensures r == if FilterConditions(criteria) == [] then None else Some(Filter(FilterConditions(criteria)))
  {
    var conditions := [];
    for i := 0 to |criteria|
      invariant conditions == FilterConditions(criteria[..i])
    {
      assert criteria[..i + 1][..i] == criteria[..i];
      var Entry(key, value) := criteria[i];
      match value {
        case Dict(ops) => conditions := AppendRangeConditions(conditions, key, ops);
        case List(items) => conditions := conditions + [MatchAny(key, items)];
        case _ => conditions := conditions + [MatchValue(key, value)];
      }
    }
    assert criteria[..|criteria|] == criteria;
    r := if conditions == [] then None else Some(Filter(conditions));
  }

  /** The inner loop of `_build_metadata_filter` over a dictionary criterion's
      entries: one range condition per operator entry, in order. */
  method AppendRangeConditions(conditions: seq<Condition>, key: string, ops: seq<Entry>) returns (r: seq<Condition>)
    ensures r == conditions + RangeConditions(key, ops)
  {
    r := conditions;
    for j := 0 to |ops|
      invariant r == conditions + RangeConditions(key, ops[..j])
    {
      assert ops[..j + 1][..j] == ops[..j];
      match ParseOp(ops[j].name) {
        case Some(op) => r := r + [Range(key, op, ops[j].val)];
        case None =>
      }
    }
    assert ops[..|ops|] == ops;
  }

  /** A range condition comes from exactly an operator entry of the criterion with that key. */
  lemma {:induction false} RangeConditionsIn(key: string, ops: seq<Entry>, op: RangeOp, bound: Value)
    ensures Range(key, op, bound) in RangeConditions(key, ops) <==> Entry(OpName(op), bound) in ops
  {
    if ops != [] {
      var init := ops[..|ops| - 1];
      var last := ops[|ops| - 1];
      RangeConditionsIn(key, init, op, bound);
      assert ops == init + [last];
      ParseOpName(op);
    }
  }

  /** Every condition of the filter is contributed by some criterion. */
  lemma {:induction false} ConditionFromCriterion(criteria: seq<Entry>, c: Condition)
    requires c in FilterConditions(criteria)
    ensures exists k :: 0 <= k < |criteria| && c in EntryConditions(criteria[k].name, criteria[k].val)
  {
    var n := |criteria| - 1;
    var init := criteria[..n];
    var tail := EntryConditions(criteria[n].name, criteria[n].val);
    assert FilterConditions(criteria) == FilterConditions(init) + tail;
    if c in FilterConditions(init) {
      ConditionFromCriterion(init, c);
      var k :| 0 <= k < |init| && c in EntryConditions(init[k].name, init[k].val);
      assert init[k] == criteria[k];
    }
  }

  /** Every condition a criterion contributes is in the filter. */
  lemma {:induction false} CriterionConditionIn(criteria: seq<Entry>, c: Condition, k: nat)
    requires k < |criteria| && c in EntryConditions(criteria[k].name, criteria[k].val)
    ensures c in FilterConditions(criteria)
  {
    var n := |criteria| - 1;
    var init := criteria[..n];
    var tail := EntryConditions(criteria[n].name, criteria[n].val);
    assert FilterConditions(criteria) == FilterConditions(init) + tail;
    if k < n {
      assert init[k] == criteria[k];
      CriterionConditionIn(init, c, k);
    }
  }

  /** A dictionary criterion that names no range operator. */
  predicate Ignored(value: Value)
  {
    value.Dict? && forall k :: 0 <= k < |value.entries| ==> ParseOp(value.entries[k].name).None?
  }

  lemma {:induction false} RangeConditionsEmpty(key: string, ops: seq<Entry>)
    ensures RangeConditions(key, ops) == [] <==> forall k :: 0 <= k < |ops| ==> ParseOp(ops[k].name).None?
  {
    if ops != [] {
      var init := ops[..|ops| - 1];
      RangeConditionsEmpty(key, init);
      assert forall k :: 0 <= k < |init| ==> init[k] == ops[k];
    }
  }

  /** A criterion contributes no condition iff it is ignored. */
  lemma EntryConditionsEmpty(key: string, value: Value)
    ensures EntryConditions(key, value) == [] <==> Ignored(value)
  {
    if value.Dict? {
      RangeConditionsEmpty(key, value.entries);
    }
  }

  /** The filter has no condition iff no criterion contributes one. */
  lemma {:induction false} FilterConditionsEmpty(criteria: seq<Entry>)
    ensures FilterConditions(criteria) == [] <==>
      forall k :: 0 <= k < |criteria| ==> EntryConditions(criteria[k].name, criteria[k].val) == []
  {
    if criteria != [] {
      var init := criteria[..|criteria| - 1];
      var last := criteria[|criteria| - 1];
      FilterConditionsEmpty(init);
      assert FilterConditions(criteria) == FilterConditions(init) + EntryConditions(last.name, last.val);
      assert forall k :: 0 <= k < |init| ==> init[k] == criteria[k];
    }
  }

  /** There is no filter iff every criterion is a dictionary without a range operator. */
  lemma NoFilterIff(criteria: seq<Entry>)
    ensures FilterConditions(criteria) == [] <==> forall k :: 0 <= k < |criteria| ==> Ignored(criteria[k].val)
  {
    FilterConditionsEmpty(criteria);
    forall k | 0 <= k < |criteria|
      ensures EntryConditions(criteria[k].name, criteria[k].val) == [] <==> Ignored(criteria[k].val)
    {
      EntryConditionsEmpty(criteria[k].name, criteria[k].val);
    }
  }

  /** A list criterion always becomes a `MatchAny` and a scalar one (a
      boolean included) a `MatchValue`. */
  lemma {:induction false} ListAndScalarCriteria(criteria: seq<Entry>, k: nat)
    requires k < |criteria| && !criteria[k].val.Dict?
    ensures criteria[k].val.List? ==> MatchAny(criteria[k].name, criteria[k].val.items) in FilterConditions(criteria)
    ensures !criteria[k].val.List? ==> MatchValue(criteria[k].name, criteria[k].val) in FilterConditions(criteria)
  {
    var Entry(key, value) := criteria[k];
    if value.List? {
      CriterionConditionIn(criteria, MatchAny(key, value.items), k);
    } else {
      CriterionConditionIn(criteria, MatchValue(key, value), k);
    }
  }

  // ---------------------------------------------------------------------
  // Text metadata

  predicate IsTerminator(c: char) { c == '.' || c == '!' || c == '?' }

  /** The text before the first terminator (all of it when there is none). */
  function SentenceHead(text: string): (r: string)
    ensures StartsWith(text, r)
    ensures forall i :: 0 <= i < |r| ==> !IsTerminator(text[i])
    ensures |r| < |text| ==> IsTerminator(text[|r|])
  {
    if text == [] || IsTerminator(text[0]) then [] else [text[0]] + SentenceHead(text[1..])
  }

  /** The text after its leading run of terminators. */
  function SkipTerminators(text: string): (r: string)
    ensures |r| <= |text| && r == text[|text| - |r|..]
    ensures forall i :: 0 <= i < |text| - |r| ==> IsTerminator(text[i])
    ensures r != [] ==> !IsTerminator(r[0])
  {
    if text != [] && IsTerminator(text[0]) then SkipTerminators(text[1..]) else text
  }

  /** `re.split(r"[.!?]+", text)`: the pieces between maximal runs of terminators. */
  function SentencePieces(text: string): (r: seq<string>)
    ensures |r| >= 1
    decreases |text|
  {
    var head := SentenceHead(text);
    if head == text then [text]
    else [head] + SentencePieces(SkipTerminators(text[|head| + 1..]))
  }

  /** A piece `s.strip()` leaves empty. */
  predicate Blank(piece: string)
  {
    forall i :: 0 <= i < |piece| ==> IsSpace(piece[i])
  }

  /** `Blank` is the emptiness test the source applies to the stripped piece. */
  lemma BlankIsStrippedEmpty(piece: string)
    ensures Blank(piece) <==> Strip(piece) == ""
  {
    StripEmptyIff(piece);
  }

  /** The number of pieces that are not blank. */
  function NonBlankCount(pieces: seq<string>): (n: nat)
    ensures n <= |pieces|
  {
    if pieces == [] then 0
    else (if Blank(pieces[0]) then 0 else 1) + NonBlankCount(pieces[1..])
  }

  /** `sentence_count`. */
  function SentenceCount(text: string): nat
  {
    NonBlankCount(SentencePieces(text))
  }

  /** Text made only of whitespace and terminators. */
  predicate NoSentenceText(text: string)
  {
    forall i :: 0 <= i < |text| ==> IsSpace(text[i]) || IsTerminator(text[i])
  }

  /** What follows the first sentence head and its run of terminators. */
  function SentenceRest(text: string): string
    requires SentenceHead(text) != text
  {
    SkipTerminators(text[|SentenceHead(text)| + 1..])
  }

  /** Splitting off the head and the terminators after it keeps exactly the
      non-terminator characters. */
  lemma NoSentenceTextSplit(text: string)
    requires SentenceHead(text) != text
    ensures NoSentenceText(text) <==> NoSentenceText(SentenceHead(text)) && NoSentenceText(SentenceRest(text))
  {
    var h := |SentenceHead(text)|;
    assert h < |text| by {
      assert text[..|text|] == text;
    }
    NoSentenceSplitAt(text, h);
    SkipKeepsNoSentence(text[h + 1..]);
  }

  /** Cutting the text at a terminator neither adds nor removes a sentence. */
  lemma NoSentenceSplitAt(text: string, h: nat)
    requires h < |text| && IsTerminator(text[h])
    ensures NoSentenceText(text) <==> NoSentenceText(text[..h]) && NoSentenceText(text[h + 1..])
  {
    assert text == text[..h] + [text[h]] + text[h + 1..];
    NoSentenceAppend(text[..h] + [text[h]], text[h + 1..]);
    NoSentenceAppend(text[..h], [text[h]]);
  }

  /** A concatenation has no sentence iff neither part has one. */
  lemma NoSentenceAppend(a: string, b: string)
    ensures NoSentenceText(a + b) <==> NoSentenceText(a) && NoSentenceText(b)
  {
    assert forall i :: 0 <= i < |a| ==> (a + b)[i] == a[i];
    assert forall i :: 0 <= i < |b| ==> (a + b)[|a| + i] == b[i];
  }

  /** Dropping leading terminators neither adds nor removes a sentence. */
  lemma {:induction false} SkipKeepsNoSentence(x: string)
    ensures NoSentenceText(SkipTerminators(x)) <==> NoSentenceText(x)
  {
    if x != [] && IsTerminator(x[0]) {
      SkipKeepsNoSentence(x[1..]);
      assert x == [x[0]] + x[1..];
      NoSentenceAppend([x[0]], x[1..]);
    }
  }

  /** The head counts as a sentence unless it is blank; the rest is counted on its own. */
  lemma SentenceCountSplit(text: string)
    requires SentenceHead(text) != text
    ensures SentenceCount(text) == (if Blank(SentenceHead(text)) then 0 else 1) + SentenceCount(SentenceRest(text))
  {
    var pieces := SentencePieces(text);
    assert pieces == [SentenceHead(text)] + SentencePieces(SentenceRest(text));
    assert pieces[1..] == SentencePieces(SentenceRest(text));
  }

  /** No sentence iff the text is only whitespace and terminators. */
  lemma {:induction false} SentenceCountZeroIff(text: string)
    ensures SentenceCount(text) == 0 <==> NoSentenceText(text)
    decreases |text|
  {
    var head := SentenceHead(text);
    if head == text {
      assert SentencePieces(text) == [text];
      assert SentencePieces(text)[1..] == [];
    } else {
      assert Blank(head) <==> NoSentenceText(head) by {
        assert forall i :: 0 <= i < |head| ==> head[i] == text[i];
      }
      SentenceCountZeroIff(SentenceRest(text));
      SentenceCountSplit(text);
      NoSentenceTextSplit(text);
    }
  }

  /** The integer, boolean and string fields of `generate_text_metadata`. */
  datatype TextMetadata = TextMetadata(
    wordCount: nat,
    sentenceCount: nat,
    charCount: nat,
    charCountNoSpaces: nat,
    hasUrls: bool,
    textPreview: string,
    textSuffix: string)

  function Min(a: nat, b: nat): nat { if a <= b then a else b }

  /** `generate_text_metadata`, without its floating-point, regex-class and hash fields. */
  function GenerateTextMetadata(text: string): (m: TextMetadata)
    ensures m.charCount == |text|
    ensures m.charCountNoSpaces == |text| - CountChar(text, ' ')
    ensures |m.textPreview| == Min(100, |text|) && StartsWith(text, m.textPreview)
    ensures |m.textSuffix| == Min(50, |text|) && EndsWith(text, m.textSuffix)
    ensures m.wordCount == WordCount(text) && m.sentenceCount == SentenceCount(text) && m.hasUrls == HasUrls(text)
  {
    TextMetadata(
      WordCount(text),
      SentenceCount(text),
      |text|,
      |RemoveChar(text, ' ')|,
      HasUrls(text),
      text[..Min(100, |text|)],
      if |text| > 50 then text[|text| - 50..] else text)
  }

  /** `has_urls`: the text names an http or https scheme. */
  function HasUrls(text: string): bool
  {
    Contains(text, "http://") || Contains(text, "https://")
  }

  /** `re.search(r"https?://", text)` matches at `i`. */
  ghost predicate UrlSchemeAt(text: string, i: nat)
  {
    OccursAt(text, "http", i) && (OccursAt(text, "://", i + 4) || OccursAt(text, "s://", i + 4))
  }

  /** A match of the pattern is an occurrence of one of its two spellings. */
  lemma UrlSchemeSpelled(text: string, i: nat)
    requires UrlSchemeAt(text, i)
    ensures OccursAt(text, "http://", i) || OccursAt(text, "https://", i)
  {
    if OccursAt(text, "://", i + 4) {
      assert text[i..i + 7] == text[i..i + 4] + text[i + 4..i + 7];
    } else {
      assert text[i..i + 8] == text[i..i + 4] + text[i + 4..i + 8];
    }
  }

  /** An occurrence of either spelling is a match of the pattern. */
  lemma SpelledUrlScheme(text: string, i: nat)
    requires OccursAt(text, "http://", i) || OccursAt(text, "https://", i)
    ensures UrlSchemeAt(text, i)
  {
    if OccursAt(text, "http://", i) {
      assert text[i..i + 4] == text[i..i + 7][..4];
      assert text[i + 4..i + 7] == text[i..i + 7][4..];
    } else {
      assert text[i..i + 4] == text[i..i + 8][..4];
      assert text[i + 4..i + 8] == text[i..i + 8][4..];
    }
  }

  /** `has_urls` holds iff the pattern matches somewhere. */
  lemma HasUrlsIff(text: string)
    ensures HasUrls(text) <==> exists i :: UrlSchemeAt(text, i)
  {
    if HasUrls(text) {
      var i: nat;
      if Contains(text, "http://") {
        i := Find(text, "http://").value;
      } else {
        i := Find(text, "https://").value;
      }
      SpelledUrlScheme(text, i);
    }
    if i: nat :| UrlSchemeAt(text, i) {
      UrlSchemeSpelled(text, i);
      if OccursAt(text, "http://", i) {
        ContainsAt(text, "http://", i);
      } else {
        ContainsAt(text, "https://", i);
      }
    }
  }

  /** No word iff the text is all whitespace. */
  lemma {:induction false} WordCountZeroIff(text: string)
    ensures WordCount(text) == 0 <==> forall i :: 0 <= i < |text| ==> IsSpace(text[i])
  {
    if text != [] {
      WordCountZeroIff(text[1..]);
      assert forall i :: 0 <= i < |text| - 1 ==> text[1..][i] == text[i + 1];
    }
  }

  // ---------------------------------------------------------------------
  // Test-type distribution

  /** `payload.get("test_type", "unknown")`. */
  function TestType(stored: Option<string>): string
  {
    stored.GetOr("unknown")
  }

  /** `[p.payload.get("test_type", "unknown") for p in points]`. */
  function TestTypes(sample: seq<Option<string>>): (types: seq<string>)
    ensures |types| == |sample| && forall k :: 0 <= k < |sample| ==> types[k] == TestType(sample[k])
  {
    if sample == [] then [] else TestTypes(sample[..|sample| - 1]) + [TestType(sample[|sample| - 1])]
  }

  /** `{t: test_types.count(t) for t in set(test_types)}`. */
  function TypeDistribution(sample: seq<Option<string>>): (d: map<string, nat>)
    ensures forall t :: t in d <==> exists k :: 0 <= k < |sample| && TestType(sample[k]) == t
  {
    var types := TestTypes(sample);
    assert forall t :: t in types <==> exists k :: 0 <= k < |sample| && types[k] == t;
    map t | t in types :: Occurrences(types, t)
  }

  /** The sum of `d`'s values over the listed keys. */
  function SumOver(keys: seq<string>, d: map<string, nat>): nat
    requires forall k :: 0 <= k < |keys| ==> keys[k] in d
  {
    if keys == [] then 0 else SumOver(keys[..|keys| - 1], d) + d[keys[|keys| - 1]]
  }

  predicate DistinctKeys(keys: seq<string>)
  {
    forall i, j :: 0 <= i < j < |keys| ==> keys[i] != keys[j]
  }

  /** Enumerated in any order, the distribution's counts add up to the
      sample size, and each is at least one. */
  lemma DistributionSums(sample: seq<Option<string>>, keys: seq<string>)
    requires DistinctKeys(keys)
    requires forall t :: t in keys <==> t in TypeDistribution(sample)
    ensures forall k :: 0 <= k < |keys| ==> keys[k] in TypeDistribution(sample)
    ensures SumOver(keys, TypeDistribution(sample)) == |sample|
    ensures forall t :: t in TypeDistribution(sample) ==> TypeDistribution(sample)[t] >= 1
  {
    var types := TestTypes(sample);
    var d := TypeDistribution(sample);
    assert forall k :: 0 <= k < |keys| ==> keys[k] in d;
    SumOverCounts(keys, types, d);
    assert forall k :: 0 <= k < |types| ==> types[k] in keys by {
      forall k | 0 <= k < |types| ensures types[k] in keys {
        assert TestType(sample[k]) in d;
      }
    }
    CountsCover(keys, types);
    forall t | t in d ensures d[t] >= 1 {
      assert t in types;
      OccurrencesPositive(types, t);
    }
  }

  /** The total of `types.count(t)` over the listed keys. */
  function SumCounts(keys: seq<string>, types: seq<string>): nat
  {
    if keys == [] then 0 else SumCounts(keys[..|keys| - 1], types) + Occurrences(types, keys[|keys| - 1])
  }

  lemma {:induction false} SumOverCounts(keys: seq<string>, types: seq<string>, d: map<string, nat>)
    requires forall k :: 0 <= k < |keys| ==> keys[k] in d && d[keys[k]] == Occurrences(types, keys[k])
    ensures SumOver(keys, d) == SumCounts(keys, types)
  {
    if keys != [] {
      SumOverCounts(keys[..|keys| - 1], types, d);
    }
  }

  lemma {:induction false} SumCountsSnoc(keys: seq<string>, types: seq<string>, x: string)
    ensures SumCounts(keys, types + [x]) == SumCounts(keys, types) + Occurrences(keys, x)
  {
    assert (types + [x])[..|types|] == types;
    if keys != [] {
      SumCountsSnoc(keys[..|keys| - 1], types, x);
    }
  }

  lemma {:induction false} SumCountsEmpty(keys: seq<string>)
    ensures SumCounts(keys, []) == 0
  {
    if keys != [] {
      SumCountsEmpty(keys[..|keys| - 1]);
    }
  }

  /** Over distinct keys covering every type, the counts add up to the number of types. */
  lemma {:induction false} CountsCover(keys: seq<string>, types: seq<string>)
    requires DistinctKeys(keys)
    requires forall k :: 0 <= k < |types| ==> types[k] in keys
    ensures SumCounts(keys, types) == |types|
  {
    if types == [] {
      SumCountsEmpty(keys);
    } else {
      var init := types[..|types| - 1];
      var x := types[|types| - 1];
      assert forall k :: 0 <= k < |init| ==> init[k] == types[k];
      CountsCover(keys, init);
      assert types == init + [x];
      SumCountsSnoc(keys, init, x);
      OccurrencesDistinct(keys, x);
    }
  }
}
