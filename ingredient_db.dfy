/**
 * The ingredient database as the annotator sees it, and the two lookups it
 * makes in it: which database name an ingredient matches (exact first, fuzzy
 * second) and which functions the matched entry's behaviour records list.
 */
module IngredientDb {
  import opened Wrappers
  import opened Names

  /**
   * One element of an entry's `behaviors` list. `NotARecord` is any element
   * that is not a dict. For a dict, `functions` is its `functions` value when
   * that is a list, and `None` when the key is missing or holds `None`.
   */
  datatype Behavior = NotARecord | Record(functions: Option<seq<string>>)

  /** One ingredient record; `behaviors` is `None` unless the field is a list. */
  datatype IngredientRecord = IngredientRecord(inciName: string, behaviors: Option<seq<Behavior>>)

  /** The two parts of the loaded data set the annotator reads. */
  datatype AllData = AllData(namesForMatching: seq<string>, ingredients: seq<IngredientRecord>)

  /** What the fuzzy matcher returns: the chosen name and its similarity score. */
  datatype Match = Match(choice: string, score: int)

  /**
   * The similarity search of the fuzzy-matching library: given a query and
   * the candidate names, its best candidate, if any. Its internals are not
   * modelled; it is a parameter of the model.
   */
  type BestCandidate = (string, seq<string>) -> Option<Match>

  /** The score a fuzzy match needs to be accepted. */
  const MatchCutoff: int := 85

  /** Record `r` is the last of `records` whose lower-cased name is `key`. */
  ghost predicate IsLastWithName(records: seq<IngredientRecord>, key: string, r: IngredientRecord) {
    exists i :: 0 <= i < |records| && records[i] == r && ToLower(records[i].inciName) == key &&
      forall j :: i < j < |records| ==> ToLower(records[j].inciName) != key
  }

  /**
   * The dictionary from lower-cased INCI name to record. Later records
   * overwrite earlier ones with the same lower-cased name.
   */
  function IndexByName(records: seq<IngredientRecord>): (index: map<string, IngredientRecord>)
    ensures |index| <= |records|
  {
    if records == [] then map[]
    else
      var last := records[|records| - 1];
      IndexByName(records[..|records| - 1])[ToLower(last.inciName) := last]
  }

  /** Every record's lower-cased name is a key of the dictionary. */
  lemma {:induction false} IndexByNameComplete(records: seq<IngredientRecord>, i: int)
    requires 0 <= i < |records|
    ensures ToLower(records[i].inciName) in IndexByName(records)
  {
    if i < |records| - 1 {
      IndexByNameComplete(records[..|records| - 1], i);
    }
  }

  /** Each key holds the last record with that lower-cased name. */
  lemma {:induction false} IndexByNameLast(records: seq<IngredientRecord>, key: string)
    requires key in IndexByName(records)
    ensures IsLastWithName(records, key, IndexByName(records)[key])
  {
    var init := records[..|records| - 1];
    var last := records[|records| - 1];
    if ToLower(last.inciName) == key {
      assert records[|records| - 1] == last;
    } else {
      IndexByNameLast(init, key);
      var i :| 0 <= i < |init| && init[i] == IndexByName(init)[key] && ToLower(init[i].inciName) == key &&
        forall j :: i < j < |init| ==> ToLower(init[j].inciName) != key;
      assert records[i] == init[i];
      assert forall j :: i < j < |records| ==> ToLower(records[j].inciName) != key by {
        forall j | i < j < |records|
          ensures ToLower(records[j].inciName) != key
        {
          if j < |init| {
            assert records[j] == init[j];
          }
        }
      }
    }
  }

  /**
   * The fuzzy matcher called with a score cutoff: it returns the best
   * candidate only when that candidate is one of `choices` and scores at
   * least `cutoff`.
   */
  function ExtractOne(best: BestCandidate, query: string, choices: seq<string>, cutoff: int): (r: Option<Match>)
    ensures r.Some? ==> r.value.choice in choices && r.value.score >= cutoff
    ensures r.Some? ==> r == best(query, choices)
    ensures (best(query, choices).Some? && best(query, choices).value.choice in choices &&
             best(query, choices).value.score >= cutoff) ==> r == best(query, choices)
  {
    match best(query, choices)
    case Some(m) => if m.choice in choices && m.score >= cutoff then Some(m) else None
    case None => None
  }

  /**
   * The database name an ingredient matches: the name itself when it is in
   * `dbNames`, otherwise the fuzzy matcher's answer at the cutoff.
   */
  function MatchedName(name: string, dbNames: seq<string>, best: BestCandidate): (matched: Option<string>)
    ensures name in dbNames ==> matched == Some(name)
    ensures matched.Some? ==> matched.value in dbNames
  {
    if name in dbNames then Some(name)
    else
      match ExtractOne(best, name, dbNames, MatchCutoff)
      case Some(m) => Some(m.choice)
      case None => None
  }

  /** An exact match never consults the fuzzy matcher: any two matchers agree. */
  lemma ExactMatchWins(name: string, dbNames: seq<string>, best1: BestCandidate, best2: BestCandidate)
    requires name in dbNames
    ensures MatchedName(name, dbNames, best1) == MatchedName(name, dbNames, best2) == Some(name)
  {
  }

  /** Without an exact match, the match is a fuzzy one at or above the cutoff. */
  lemma FuzzyMatchAboveCutoff(name: string, dbNames: seq<string>, best: BestCandidate)
    requires name !in dbNames
    requires MatchedName(name, dbNames, best).Some?
    ensures best(name, dbNames).Some?
    ensures best(name, dbNames).value.choice == MatchedName(name, dbNames, best).value
    ensures best(name, dbNames).value.score >= MatchCutoff
  {
  }

  /**
   * Without an exact match, an answer of the fuzzy matcher that is a database
   * name scoring at least the cutoff becomes the match.
   */
  lemma FuzzyMatchTaken(name: string, dbNames: seq<string>, best: BestCandidate)
    requires name !in dbNames
    requires best(name, dbNames).Some?
    requires best(name, dbNames).value.choice in dbNames && best(name, dbNames).value.score >= MatchCutoff
    ensures MatchedName(name, dbNames, best) == Some(best(name, dbNames).value.choice)
  {
  }

  /** Without an exact match, nothing matches exactly when the fuzzy matcher gives no acceptable answer. */
  lemma NoMatchIff(name: string, dbNames: seq<string>, best: BestCandidate)
    requires name !in dbNames
    ensures MatchedName(name, dbNames, best).None? <==>
      best(name, dbNames).None? || best(name, dbNames).value.choice !in dbNames || best(name, dbNames).value.score < MatchCutoff
  {
  }

  /** A behaviour record that adds functions: a dict with a non-empty `functions` list. */
  predicate Contributes(b: Behavior): (contributes: bool)
    ensures contributes <==> b.Record? && b.functions.Some? && exists f :: f in b.functions.value
  {
    if b.Record? && b.functions.Some? && b.functions.value != [] then
      assert b.functions.value[0] in b.functions.value;
      true
    else false
  }

  /** Behaviour `b` contributes, and function `f` is among those it lists. */
  predicate Lists(b: Behavior, f: string) {
    Contributes(b) && f in b.functions.value
  }

  /** The functions of every contributing record, in order. */
  function Contributed(behaviors: seq<Behavior>): (functions: seq<string>)
    ensures behaviors == [] ==> functions == []
  {
    if behaviors == [] then []
    else
      var last := behaviors[|behaviors| - 1];
      Contributed(behaviors[..|behaviors| - 1]) + (if Contributes(last) then last.functions.value else [])
  }

  /** A function is collected exactly when some contributing record lists it. */
  lemma {:induction false} ContributedMembers(behaviors: seq<Behavior>, f: string)
    ensures f in Contributed(behaviors) <==> exists j :: 0 <= j < |behaviors| && Lists(behaviors[j], f)
  {
    if behaviors != [] {
      var init := behaviors[..|behaviors| - 1];
      ContributedMembers(init, f);
      assert forall j :: 0 <= j < |init| ==> behaviors[j] == init[j];
      if f in Contributed(behaviors) && f !in Contributed(init) {
        assert Lists(behaviors[|behaviors| - 1], f);
      }
    }
  }

  /** Nothing is collected exactly when no record contributes. */
  lemma {:induction false} ContributedEmpty(behaviors: seq<Behavior>)
    ensures Contributed(behaviors) == [] <==> forall j :: 0 <= j < |behaviors| ==> !Contributes(behaviors[j])
  {
    if behaviors != [] {
      var init := behaviors[..|behaviors| - 1];
      ContributedEmpty(init);
      assert forall j :: 0 <= j < |init| ==> behaviors[j] == init[j];
    }
  }

  /** The functions the database gives for a match, or none when it gives nothing. */
  function DatabaseFunctions(matched: Option<string>, index: map<string, IngredientRecord>): (functions: seq<string>)
    ensures functions != [] ==> matched.Some? && matched.value in index && index[matched.value].behaviors.Some?
    ensures matched.Some? && matched.value in index && index[matched.value].behaviors.Some? ==>
      functions == Contributed(index[matched.value].behaviors.value)
  {
    if matched.Some? && matched.value in index && index[matched.value].behaviors.Some? then
      Contributed(index[matched.value].behaviors.value)
    else []
  }

  /**
   * Collects, record by record, the functions of the entry stored under
   * `matchedName`.
   */
  method CollectFromDatabase(matchedName: string, index: map<string, IngredientRecord>) returns (functions: seq<string>)
    ensures functions == DatabaseFunctions(Some(matchedName), index)
  {
    functions := [];
    if matchedName in index && index[matchedName].behaviors.Some? {
      var behaviors := index[matchedName].behaviors.value;
      for j := 0 to |behaviors|
        invariant functions == Contributed(behaviors[..j])
      {
        assert behaviors[..j + 1][..j] == behaviors[..j];
        var behavior := behaviors[j];
        if behavior.Record? && behavior.functions.Some? && behavior.functions.value != [] {
          functions := functions + behavior.functions.value;
        }
      }
      assert behaviors[..|behaviors|] == behaviors;
    }
  }
}
