/**
 * `analyze_ingredient_functions`: annotates every ingredient of a formula with
 * its functions, a "Positive Impact" / "Neutral/Functional" classification and
 * the source the functions came from.
 */
module FunctionAnalysis {
  import opened Wrappers
  import opened Names
  import opened IngredientDb

  const Heuristic: string := "Heuristic"
  const PositiveImpact: string := "Positive Impact"
  const NeutralFunctional: string := "Neutral/Functional"

  /** The functions that make an ingredient a positive one. */
  const PositiveFunctions: seq<string> := [
    "Hydration", "Soothing", "Antioxidant", "Brightening", "Anti-aging",
    "Exfoliation (mild)", "Barrier Support", "Sebum Regulation",
    "UV Protection", "Emollient", "Humectant"]

  /** The `source` label of a database match on `matchedName`. */
  function DatabaseSource(matchedName: string): (source: string)
    ensures source != Heuristic
  {
    var source := "Database (Match: " + matchedName + ")";
    assert source[0] == 'D';
    source
  }

  /** Two database labels are equal only for the same matched name. */
  lemma DatabaseSourceInjective(m1: string, m2: string)
    requires DatabaseSource(m1) == DatabaseSource(m2)
    ensures m1 == m2
  {
    var s1, s2 := DatabaseSource(m1), DatabaseSource(m2);
    assert m1 == s1[17..|s1| - 1];
    assert m2 == s2[17..|s2| - 1];
  }

  /** The functions the database gives for a normalised name. */
  function LookupFunctions(name: string, dbNames: seq<string>, index: map<string, IngredientRecord>, best: BestCandidate)
    : (functions: seq<string>)
    ensures functions != [] ==> MatchedName(name, dbNames, best).Some?
    ensures name in dbNames ==> functions == DatabaseFunctions(Some(name), index)
  {
    DatabaseFunctions(MatchedName(name, dbNames, best), index)
  }

  /** The `source` of a normalised name: its database match if that gives functions. */
  function SourceOf(name: string, dbNames: seq<string>, index: map<string, IngredientRecord>, best: BestCandidate): (source: string)
    ensures source == Heuristic <==> LookupFunctions(name, dbNames, index, best) == []
  {
    var matched := MatchedName(name, dbNames, best);
    if matched.Some? && DatabaseFunctions(matched, index) != [] then DatabaseSource(matched.value)
    else Heuristic
  }

  /**
   * The source names match `m` exactly when `m` is the matched name and its
   * entry has a `behaviors` list with at least one contributing record.
   */
  lemma SourceIsDatabase(name: string, dbNames: seq<string>, index: map<string, IngredientRecord>, best: BestCandidate,
                         m: string)
    ensures SourceOf(name, dbNames, index, best) == DatabaseSource(m) <==>
      && MatchedName(name, dbNames, best) == Some(m)
      && m in index && index[m].behaviors.Some?
      && exists j :: 0 <= j < |index[m].behaviors.value| && Contributes(index[m].behaviors.value[j])
  {
    var matched := MatchedName(name, dbNames, best);
    if matched.Some? && matched.value in index && index[matched.value].behaviors.Some? {
      ContributedEmpty(index[matched.value].behaviors.value);
    }
    if m in index && index[m].behaviors.Some? {
      ContributedEmpty(index[m].behaviors.value);
    }
    if SourceOf(name, dbNames, index, best) == DatabaseSource(m) {
      DatabaseSourceInjective(matched.value, m);
    }
  }

  /** Which function a keyword of the name suggests, rule by rule. */
  predicate Suggests(name: string, f: string) {
    var extract := Contains(name, "extract");
    var ferment := Contains(name, "ferment") || Contains(name, "lactobacillus");
    var water := Contains(name, "water") && !Contains(name, "aqua");
    (f == "Antioxidant" && extract)
    || (f == "Soothing" && (extract || ferment || water))
    || (f == "Hydration" && (ferment || water))
  }

  /** The functions the keyword rules add, in the order they add them. */
  function Heuristics(name: string): (functions: seq<string>)
    ensures |functions| <= 6
  {
    (if Contains(name, "extract") then ["Antioxidant", "Soothing"] else [])
    + (if Contains(name, "ferment") || Contains(name, "lactobacillus") then ["Soothing", "Hydration"] else [])
    + (if Contains(name, "water") && !Contains(name, "aqua") then ["Soothing", "Hydration"] else [])
  }

  /** The keyword rules add a function exactly when one of their keywords suggests it. */
  lemma HeuristicsSuggest(name: string, f: string)
    ensures f in Heuristics(name) <==> Suggests(name, f)
  {
  }

  /** Every function a keyword rule adds is a positive one. */
  lemma HeuristicsArePositive(name: string, f: string)
    requires f in Heuristics(name)
    ensures f in PositiveFunctions
  {
  }

  /** All functions collected for a normalised name, before duplicates are removed. */
  function CollectedFunctions(name: string, dbNames: seq<string>, index: map<string, IngredientRecord>, best: BestCandidate)
    : (collected: seq<string>)
    ensures LookupFunctions(name, dbNames, index, best) != [] ==> collected == LookupFunctions(name, dbNames, index, best)
    ensures LookupFunctions(name, dbNames, index, best) == [] ==> collected == Heuristics(name)
  {
    var db := LookupFunctions(name, dbNames, index, best);
    if SourceOf(name, dbNames, index, best) == Heuristic then db + Heuristics(name) else db
  }

  /**
   * The keyword rules apply only when the database gives nothing: then they
   * are all that is collected; otherwise the database functions are.
   */
  lemma CollectedBySource(name: string, dbNames: seq<string>, index: map<string, IngredientRecord>, best: BestCandidate)
    ensures SourceOf(name, dbNames, index, best) == Heuristic ==>
      CollectedFunctions(name, dbNames, index, best) == Heuristics(name)
    ensures SourceOf(name, dbNames, index, best) != Heuristic ==>
      CollectedFunctions(name, dbNames, index, best) == LookupFunctions(name, dbNames, index, best) != []
  {
    if SourceOf(name, dbNames, index, best) == Heuristic {
      assert LookupFunctions(name, dbNames, index, best) == [];
      assert [] + Heuristics(name) == Heuristics(name);
    }
  }

  /** Some element of `candidates` is in `functions` (Python's `any(...)`). */
  function AnyIn(candidates: seq<string>, functions: seq<string>): (found: bool)
    ensures found ==> candidates != [] && functions != []
  {
    if candidates == [] then false
    else candidates[0] in functions || AnyIn(candidates[1..], functions)
  }

  lemma {:induction false} AnyInIff(candidates: seq<string>, functions: seq<string>)
    ensures AnyIn(candidates, functions) <==> exists c :: c in candidates && c in functions
  {
    if candidates != [] {
      AnyInIff(candidates[1..], functions);
      assert forall c :: c in candidates <==> c == candidates[0] || c in candidates[1..];
    }
  }

  /** "Positive Impact" when some function is a positive one. */
  function Classify(functions: seq<string>): (classification: string)
    ensures classification == PositiveImpact || classification == NeutralFunctional
    ensures functions == [] ==> classification == NeutralFunctional
  {
    if AnyIn(PositiveFunctions, functions) then PositiveImpact else NeutralFunctional
  }

  /** The classification is "Positive Impact" exactly when a positive function occurs. */
  lemma ClassifyIff(functions: seq<string>)
    ensures Classify(functions) == PositiveImpact <==> exists f :: f in functions && f in PositiveFunctions
  {
    AnyInIff(PositiveFunctions, functions);
  }

  /** The classification depends only on which functions occur, not on their order or repetition. */
  lemma ClassifyBySet(a: seq<string>, b: seq<string>)
    requires Members(a) == Members(b)
    ensures Classify(a) == Classify(b)
  {
    ClassifyIff(a);
    ClassifyIff(b);
    assert forall f :: f in a <==> f in Members(a);
    assert forall f :: f in b <==> f in Members(b);
  }

  /**
   * A name the database gives nothing for is "Positive Impact" exactly when
   * some keyword rule fires.
   */
  lemma HeuristicClassification(name: string, dbNames: seq<string>, index: map<string, IngredientRecord>, best: BestCandidate)
    requires SourceOf(name, dbNames, index, best) == Heuristic
    ensures Classify(CollectedFunctions(name, dbNames, index, best)) == PositiveImpact <==> Heuristics(name) != []
  {
    CollectedBySource(name, dbNames, index, best);
    ClassifyIff(Heuristics(name));
    if Heuristics(name) != [] {
      HeuristicsArePositive(name, Heuristics(name)[0]);
    }
  }

  /** A name the database gives nothing for and that contains "extract" is "Positive Impact". */
  lemma HeuristicExtractIsPositive(name: string, dbNames: seq<string>, index: map<string, IngredientRecord>, best: BestCandidate)
    requires SourceOf(name, dbNames, index, best) == Heuristic
    requires Contains(name, "extract")
    ensures "Antioxidant" in CollectedFunctions(name, dbNames, index, best)
    ensures Classify(CollectedFunctions(name, dbNames, index, best)) == PositiveImpact
  {
    CollectedBySource(name, dbNames, index, best);
    HeuristicsSuggest(name, "Antioxidant");
    HeuristicClassification(name, dbNames, index, best);
  }

  /** The set of elements of `s`. */
  function Members(s: seq<string>): set<string> {
    set f | f in s
  }

  predicate NoDuplicates(s: seq<string>) {
    forall i, j :: 0 <= i < j < |s| ==> s[i] != s[j]
  }

  /** `list(set(functions))`: each function once, in an unspecified order. */
  method Unique(functions: seq<string>) returns (unique: seq<string>)
    ensures NoDuplicates(unique)
    ensures Members(unique) == Members(functions)
  {
    var pending := set f | f in functions;
    unique := [];
    while pending != {}
      invariant NoDuplicates(unique)
      invariant forall f :: f in unique ==> f !in pending
      invariant forall f :: f in functions <==> f in unique || f in pending
      decreases |pending|
    {
      var f :| f in pending;
      unique := unique + [f];
      pending := pending - {f};
    }
  }

  /** Computes the annotation of one ingredient name. */
  method AnnotateOne(rawName: string, dbNames: seq<string>, index: map<string, IngredientRecord>, best: BestCandidate)
    returns (functions: seq<string>, classification: string, source: string)
    ensures source == SourceOf(Normalize(rawName), dbNames, index, best)
    ensures NoDuplicates(functions)
    ensures Members(functions) == Members(CollectedFunctions(Normalize(rawName), dbNames, index, best))
    ensures classification == Classify(functions)
  {
    var name := ToLower(rawName);
    if name == "aqua" {
      name := "water";
    }
    var collected: seq<string> := [];
    source := Heuristic;
    var matched := MatchedName(name, dbNames, best);
    if matched.Some? {
      collected := CollectFromDatabase(matched.value, index);
      if collected != [] {
        source := DatabaseSource(matched.value);
      }
    }
    ghost var db := collected;
    if source == Heuristic {
      if Contains(name, "extract") {
        collected := collected + ["Antioxidant", "Soothing"];
      }
      if Contains(name, "ferment") || Contains(name, "lactobacillus") {
        collected := collected + ["Soothing", "Hydration"];
      }
      if Contains(name, "water") && !Contains(name, "aqua") {
        collected := collected + ["Soothing", "Hydration"];
      }
      assert collected == db + Heuristics(name);
    }
    functions := Unique(collected);
    classification := Classify(functions);
  }
}
