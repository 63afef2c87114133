/**
 * The list-level part of `analyze_ingredient_functions`: ingredient items are
 * dicts that the annotator updates in place, one after the other, collecting
 * them into the returned list.
 */
module Analysis {
  import opened Names
  import opened IngredientDb
  import opened FunctionAnalysis

  /** A value stored in an ingredient item (a Python dict value). */
  datatype Value = Text(text: string) | TextList(texts: seq<string>) | Number(amount: real)

  /** An ingredient item: a dict that the annotator updates in place. */
  class Item {
    var fields: map<string, Value>

    constructor (fields: map<string, Value>)
      ensures this.fields == fields
    {
      this.fields := fields;
    }

    /** `dict.update`: the patch's keys are set, all other keys keep their value. */
    method Update(patch: map<string, Value>)
      modifies this
      ensures fields == old(fields) + patch
    {
      fields := fields + patch;
    }
  }

  /** The keys the annotator writes into each item. */
  const AnnotationKeys: set<string> := {"functions", "classification", "source"}

  ghost predicate HasName(fields: map<string, Value>) {
    "name" in fields && fields["name"].Text?
  }

  /** `after` agrees with `before` on every key the annotator does not write. */
  ghost predicate SameOutside(before: map<string, Value>, after: map<string, Value>) {
    forall key :: key !in AnnotationKeys ==> (key in before <==> key in after) && (key in before ==> after[key] == before[key])
  }

  /**
   * What the annotation of an ingredient is determined to be: its source, the
   * set of its functions and its classification. The order of the stored
   * functions is not determined.
   */
  datatype Expected = Expected(source: string, functions: set<string>, classification: string)

  ghost function ExpectedAnnotation(rawName: string, dbNames: seq<string>, index: map<string, IngredientRecord>,
                                    best: BestCandidate): (e: Expected)
    ensures e.source == Heuristic || e.functions != {}
    ensures e.classification == PositiveImpact || e.classification == NeutralFunctional
  {
    var name := Normalize(rawName);
    var collected := CollectedFunctions(name, dbNames, index, best);
    assert collected != [] ==> collected[0] in Members(collected);
    Expected(SourceOf(name, dbNames, index, best), Members(collected), Classify(collected))
  }

  /** An ingredient named "aqua", in any case, is annotated exactly as "water" is. */
  lemma AquaAnnotatedAsWater(raw: string, dbNames: seq<string>, index: map<string, IngredientRecord>, best: BestCandidate)
    requires |raw| == 4
    requires raw[0] in {'a', 'A'} && raw[1] in {'q', 'Q'} && raw[2] in {'u', 'U'} && raw[3] in {'a', 'A'}
    ensures ExpectedAnnotation(raw, dbNames, index, best) == ExpectedAnnotation("water", dbNames, index, best)
  {
    AquaIsWater(raw);
    LowerCaseFixed("water");
  }

  /**
   * The expected classification is "Positive Impact" exactly when one of the
   * expected functions is a positive one.
   */
  lemma ExpectedClassificationIff(rawName: string, dbNames: seq<string>, index: map<string, IngredientRecord>,
                                  best: BestCandidate)
    ensures var e := ExpectedAnnotation(rawName, dbNames, index, best);
      e.classification == PositiveImpact <==> exists f :: f in e.functions && f in PositiveFunctions
  {
    ClassifyIff(CollectedFunctions(Normalize(rawName), dbNames, index, best));
  }

  /**
   * `after` is `before` with the three annotation keys written as `e`
   * describes, and nothing else changed.
   */
  ghost predicate AnnotatedAs(before: map<string, Value>, after: map<string, Value>, e: Expected) {
    && HasName(before)
    && after.Keys == before.Keys + AnnotationKeys
    && SameOutside(before, after)
    && after["functions"].TextList?
    && NoDuplicates(after["functions"].texts)
    && Members(after["functions"].texts) == e.functions
    && after["classification"] == Text(e.classification)
    && after["source"] == Text(e.source)
  }

  /** `patch` writes exactly the three annotation keys, with the values `e` describes. */
  ghost predicate PatchMatches(patch: map<string, Value>, e: Expected) {
    && patch.Keys == AnnotationKeys
    && patch["functions"].TextList?
    && NoDuplicates(patch["functions"].texts)
    && Members(patch["functions"].texts) == e.functions
    && patch["classification"] == Text(e.classification)
    && patch["source"] == Text(e.source)
  }

  /** Updating an item with a matching patch annotates it as expected. */
  lemma PatchAnnotates(before: map<string, Value>, patch: map<string, Value>, e: Expected)
    requires HasName(before) && PatchMatches(patch, e)
    ensures AnnotatedAs(before, before + patch, e)
  {
  }

  /** An update that does not write `name` keeps it. */
  lemma NameKept(before: map<string, Value>, patch: map<string, Value>)
    requires HasName(before) && "name" !in patch
    ensures HasName(before + patch) && (before + patch)["name"] == before["name"]
  {
  }

  /** A second update of the same keys overrides the first. */
  lemma UpdateOverrides(m: map<string, Value>, first: map<string, Value>, second: map<string, Value>)
    requires first.Keys <= second.Keys
    ensures (m + first) + second == m + second
  {
  }

  /** The expected annotations of a list of raw names, position by position. */
  ghost function Expectations(rawNames: seq<string>, dbNames: seq<string>, index: map<string, IngredientRecord>,
                              best: BestCandidate): (expected: seq<Expected>)
    ensures |expected| == |rawNames|
  {
    if rawNames == [] then []
    else
      Expectations(rawNames[..|rawNames| - 1], dbNames, index, best)
      + [ExpectedAnnotation(rawNames[|rawNames| - 1], dbNames, index, best)]
  }

  lemma {:induction false} ExpectationsAt(rawNames: seq<string>, dbNames: seq<string>, index: map<string, IngredientRecord>,
                                         best: BestCandidate, k: int)
    requires 0 <= k < |rawNames|
    ensures Expectations(rawNames, dbNames, index, best)[k] == ExpectedAnnotation(rawNames[k], dbNames, index, best)
  {
    if k < |rawNames| - 1 {
      ExpectationsAt(rawNames[..|rawNames| - 1], dbNames, index, best, k);
    }
  }

  /** Two positions with the same name have the same expected annotation. */
  lemma ExpectationsSameName(rawNames: seq<string>, dbNames: seq<string>, index: map<string, IngredientRecord>,
                             best: BestCandidate, i: int, k: int)
    requires 0 <= i < |rawNames| && 0 <= k < |rawNames| && rawNames[i] == rawNames[k]
    ensures Expectations(rawNames, dbNames, index, best)[i] == Expectations(rawNames, dbNames, index, best)[k]
  {
    ExpectationsAt(rawNames, dbNames, index, best, i);
    ExpectationsAt(rawNames, dbNames, index, best, k);
  }

  /**
   * Annotates one item in place: computes its annotation and passes it to
   * `item.update(...)` as `patch`.
   */
  method AnnotateItem(item: Item, dbNames: seq<string>, index: map<string, IngredientRecord>, best: BestCandidate)
    returns (patch: map<string, Value>)
    requires HasName(item.fields)
    modifies item
    ensures item.fields == old(item.fields) + patch
    ensures patch.Keys == AnnotationKeys
    ensures PatchMatches(patch, ExpectedAnnotation(old(item.fields)["name"].text, dbNames, index, best))
  {
    var rawName := item.fields["name"].text;
    var functions, classification, source := AnnotateOne(rawName, dbNames, index, best);
    ClassifyBySet(functions, CollectedFunctions(Normalize(rawName), dbNames, index, best));
    patch := map["functions" := TextList(functions), "classification" := Text(classification), "source" := Text(source)];
    item.Update(patch);
  }

  /** The patches after `patch` is written to the object at position `i`, and so to every position holding it. */
  ghost function Written(items: seq<Item>, i: int, patch: map<string, Value>, patches: seq<map<string, Value>>)
    : (written: seq<map<string, Value>>)
    requires 0 <= i < |items| && |patches| == |items|
    ensures |written| == |items|
    ensures forall k :: 0 <= k < |items| && items[k] != items[i] ==> written[k] == patches[k]
  {
    seq(|items|, k requires 0 <= k < |items| => if items[k] == items[i] then patch else patches[k])
  }

  /**
   * Bookkeeping of the annotation loop before position `i`: every item had a
   * name, positions holding the same object had the same fields, and each
   * patch written so far matches the expectation at its position.
   */
  ghost predicate Recorded(items: seq<Item>, before: seq<map<string, Value>>, rawNames: seq<string>,
                           patches: seq<map<string, Value>>, expected: seq<Expected>, i: int)
  {
    && |before| == |rawNames| == |patches| == |expected| == |items|
    && (forall j, k :: 0 <= j < |items| && 0 <= k < |items| && items[j] == items[k] ==> before[j] == before[k])
    && (forall k :: 0 <= k < |items| ==> HasName(before[k]) && rawNames[k] == before[k]["name"].text)
    && (forall k :: 0 <= k < |items| ==> patches[k].Keys <= AnnotationKeys)
    && (forall k :: 0 <= k < |items| ==> (i <= k && patches[k] == map[]) || PatchMatches(patches[k], expected[k]))
  }

  lemma RecordedAt(items: seq<Item>, before: seq<map<string, Value>>, rawNames: seq<string>,
                   patches: seq<map<string, Value>>, expected: seq<Expected>, i: int, k: int)
    requires Recorded(items, before, rawNames, patches, expected, i) && 0 <= k < |items|
    ensures HasName(before[k]) && rawNames[k] == before[k]["name"].text
    ensures patches[k].Keys <= AnnotationKeys && "name" !in patches[k]
  {
  }

  /** Writing the expected patch at position `i` extends the bookkeeping to `i + 1`. */
  lemma RecordedStep(items: seq<Item>, before: seq<map<string, Value>>, rawNames: seq<string>,
                     patches: seq<map<string, Value>>, dbNames: seq<string>, index: map<string, IngredientRecord>,
                     best: BestCandidate, i: int, patch: map<string, Value>)
    requires 0 <= i < |items|
    requires Recorded(items, before, rawNames, patches, Expectations(rawNames, dbNames, index, best), i)
    requires PatchMatches(patch, Expectations(rawNames, dbNames, index, best)[i])
    ensures Recorded(items, before, rawNames, Written(items, i, patch, patches),
                     Expectations(rawNames, dbNames, index, best), i + 1)
  {
    var expected := Expectations(rawNames, dbNames, index, best);
    var written := Written(items, i, patch, patches);
    forall k | 0 <= k < |items|
      ensures written[k].Keys <= AnnotationKeys
      ensures (i + 1 <= k && written[k] == map[]) || PatchMatches(written[k], expected[k])
    {
      if items[k] == items[i] {
        assert written[k] == patch;
        ExpectationsSameName(rawNames, dbNames, index, best, i, k);
      } else {
        assert written[k] == patches[k] && k != i;
      }
    }
  }

  /** Once every position is recorded, every item is annotated as expected. */
  lemma RecordedAll(items: seq<Item>, before: seq<map<string, Value>>, rawNames: seq<string>,
                    patches: seq<map<string, Value>>, dbNames: seq<string>, index: map<string, IngredientRecord>,
                    best: BestCandidate)
    requires Recorded(items, before, rawNames, patches, Expectations(rawNames, dbNames, index, best), |items|)
    ensures forall k :: 0 <= k < |items| ==>
      AnnotatedAs(before[k], before[k] + patches[k], ExpectedAnnotation(before[k]["name"].text, dbNames, index, best))
  {
    forall k | 0 <= k < |items|
      ensures AnnotatedAs(before[k], before[k] + patches[k], ExpectedAnnotation(before[k]["name"].text, dbNames, index, best))
    {
      ExpectationsAt(rawNames, dbNames, index, best, k);
      PatchAnnotates(before[k], patches[k], Expectations(rawNames, dbNames, index, best)[k]);
    }
  }

  /** `annotated_list.append(item)` on a list holding the first `i` items. */
  function Appended(annotated: seq<Item>, items: seq<Item>, i: int): (extended: seq<Item>)
    requires 0 <= i < |items| && annotated == items[..i]
    ensures extended == items[..i + 1]
    ensures i + 1 == |items| ==> extended == items
  {
    annotated + [items[i]]
  }

  /**
   * One pass of the annotation loop: annotates the item at position `i`,
   * given that the items before it are annotated and the rest still hold
   * their original fields `before` (apart from earlier writes to shared objects).
   */
  method AnnotateAt(items: seq<Item>, i: int, dbNames: seq<string>, index: map<string, IngredientRecord>, best: BestCandidate,
                    ghost before: seq<map<string, Value>>, ghost rawNames: seq<string>, ghost patches: seq<map<string, Value>>)
    returns (ghost written: seq<map<string, Value>>)
    requires 0 <= i < |items|
    requires Recorded(items, before, rawNames, patches, Expectations(rawNames, dbNames, index, best), i)
    requires forall k :: 0 <= k < |items| ==> items[k].fields == before[k] + patches[k]
    modifies items[i]
    ensures Recorded(items, before, rawNames, written, Expectations(rawNames, dbNames, index, best), i + 1)
    ensures forall k :: 0 <= k < |items| ==> items[k].fields == before[k] + written[k]
  {
    var item := items[i];
    RecordedAt(items, before, rawNames, patches, Expectations(rawNames, dbNames, index, best), i, i);
    NameKept(before[i], patches[i]);
    ghost var name := item.fields["name"].text;
    assert name == rawNames[i];
    ExpectationsAt(rawNames, dbNames, index, best, i);
    var patch := AnnotateItem(item, dbNames, index, best);
    assert PatchMatches(patch, ExpectedAnnotation(name, dbNames, index, best));
    RecordedStep(items, before, rawNames, patches, dbNames, index, best, i, patch);
    written := Written(items, i, patch, patches);
    forall k | 0 <= k < |items| && items[k] == item
      ensures items[k].fields == before[k] + written[k]
    {
      RecordedAt(items, before, rawNames, patches, Expectations(rawNames, dbNames, index, best), i, k);
      UpdateOverrides(before[k], patches[k], patch);
    }
  }

  /** Before the loop nothing is written and every item holds its original fields. */
  lemma RecordedStart(items: seq<Item>, before: seq<map<string, Value>>, rawNames: seq<string>,
                      patches: seq<map<string, Value>>, dbNames: seq<string>, index: map<string, IngredientRecord>,
                      best: BestCandidate)
    requires |before| == |rawNames| == |patches| == |items|
    requires forall k :: 0 <= k < |items| ==>
      before[k] == items[k].fields && HasName(before[k]) && rawNames[k] == before[k]["name"].text && patches[k] == map[]
    ensures Recorded(items, before, rawNames, patches, Expectations(rawNames, dbNames, index, best), 0)
    ensures forall k :: 0 <= k < |items| ==> items[k].fields == before[k] + patches[k]
  {
    forall k | 0 <= k < |items|
      ensures items[k].fields == before[k] + patches[k]
    {
      assert before[k] + map[] == before[k];
    }
  }

  /**
   * Annotates every item in place and returns them in a new list, in their original order.
   * The same item object may occur more than once in `items`.
   */
  method AnalyzeIngredientFunctions(items: seq<Item>, allData: AllData, best: BestCandidate) returns (annotated: seq<Item>)
    requires forall k :: 0 <= k < |items| ==> HasName(items[k].fields)
    modifies set k | 0 <= k < |items| :: items[k]
    ensures annotated == items
    ensures forall k :: 0 <= k < |items| ==>
      HasName(old(items[k].fields)) && AnnotatedAs(old(items[k].fields), items[k].fields,
                  ExpectedAnnotation(old(items[k].fields)["name"].text, allData.namesForMatching, IndexByName(allData.ingredients), best))
  {
    var dbNames := allData.namesForMatching;
    var index := IndexByName(allData.ingredients);
    ghost var before: seq<map<string, Value>> := seq(|items|, k requires 0 <= k < |items| reads items => items[k].fields);
    ghost var rawNames: seq<string> := seq(|items|, k requires 0 <= k < |items| && HasName(before[k]) => before[k]["name"].text);
    ghost var patches: seq<map<string, Value>> := seq(|items|, k => map[]);
    RecordedStart(items, before, rawNames, patches, dbNames, index, best);
    annotated := [];
    for i := 0 to |items|
      invariant annotated == items[..i]
      invariant Recorded(items, before, rawNames, patches, Expectations(rawNames, dbNames, index, best), i)
      invariant forall k :: 0 <= k < |items| ==> items[k].fields == before[k] + patches[k]
    {
      patches := AnnotateAt(items, i, dbNames, index, best, before, rawNames, patches);
      annotated := Appended(annotated, items, i);
    }
    RecordedAll(items, before, rawNames, patches, dbNames, index, best);
  }
}
