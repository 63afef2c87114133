# Ingredient function annotator

A Dafny model of `analyze_ingredient_functions` (`engine.py`), the step of
the cosmetic formula analyser that annotates every ingredient of an INCI
list. For each ingredient item, in order, it:

- lower-cases the ingredient's name and rewrites `aqua` as `water`;
- looks the name up among the database names: an exact match first, and a
  fuzzy match with score at least 85 only when there is no exact match;
- collects the `functions` of every behaviour record of the matched entry
  that is a dict with a non-empty `functions` list;
- labels the source `Database (Match: <name>)` when that gives at least one
  function, and `Heuristic` otherwise;
- for heuristic names only, applies the keyword rules: "extract" adds
  Antioxidant and Soothing; "ferment" or "lactobacillus" adds Soothing and
  Hydration; "water" without "aqua" adds Soothing and Hydration;
- removes duplicate functions (`list(set(...))`, in no particular order);
- classifies the ingredient as "Positive Impact" when one of its functions
  is in the fixed list of eleven positive functions, and as
  "Neutral/Functional" otherwise;
- writes `functions`, `classification` and `source` into the item dict in
  place and appends the item to the returned list.

Layout:

- `wrappers.dfy` defines `Option`.
- `names.dfy` (module `Names`) covers ASCII lower-casing, the aqua rule and
  Python's substring test.
- `ingredient_db.dfy` (module `IngredientDb`) covers the database:
  - the name-indexed dictionary;
  - the exact-then-fuzzy match;
  - the collection of functions from behaviour records.
- `function_analysis.dfy` (module `FunctionAnalysis`) covers the per-name
  logic: source label, keyword rules, de-duplication, classification, and
  `AnnotateOne`, the loop body on values.
- `analysis.dfy` (module `Analysis`) covers the in-place part: item dicts
  as objects of class `Item`, `dict.update`, and the loop over the list.

The fuzzy matcher is a parameter (`BestCandidate`).
`ExtractOne` adds the library's cutoff behaviour to it: the matcher's
candidate is returned exactly when it is one of the choices and scores at
least the cutoff.
The same `Item` object may occur several times in the input list. The
main loop's contract covers that case: every position ends up annotated
from its original name.

The fuzzy-match cutoff is 85, as in the code's `score_cutoff=85`.

## Model

| member | source | states |
|---|---|---|
| Names.LowerChar | engine.py:8 | an upper-case letter 'A'..'Z' becomes the lower-case letter at the same place in 'a'..'z'; any other character is unchanged |
| Names.ToLower | engine.py:8 | lower-casing keeps the length of the name |
| Names.ToLowerAt | engine.py:8 | each character of the lower-cased name is `LowerChar` of the original character at the same position |
| Names.ToLowerIgnoresCase | engine.py:8 | names that differ only in the case of ASCII letters lower-case to the same name |
| Names.ToLowerIsLowerCase | engine.py:8 | a lower-cased name has no upper-case letter left |
| Names.LowerCaseFixed | engine.py:8 | lower-casing a lower-case name changes nothing |
| Names.Normalize | engine.py:8-11 | a name that lower-cases to "aqua" is looked up as "water"; every other name is looked up as its lower-case form; so the result is never "aqua" |
| Names.AquaIsWater | engine.py:8-11 | "aqua" in any mix of cases is looked up as "water" |
| Names.NormalizeIdempotent | engine.py:8-11 | normalising a normalised name leaves it unchanged |
| Names.Contains | engine.py:36-38 | Python's `in` on strings: a keyword found in the name is no longer than the name |
| Names.ContainsIffOccurs | engine.py:36-38 | the substring test holds exactly when the keyword occurs at some position of the name |
| IngredientDb.IndexByName | engine.py:4 | the dictionary has no more entries than there are records |
| IngredientDb.IndexByNameComplete | engine.py:4 | every record's lower-cased `inci_name` is a key of the dictionary |
| IngredientDb.IndexByNameLast | engine.py:4 | each key holds the last record with that lower-cased name (later records overwrite earlier ones) |
| IngredientDb.ExtractOne | engine.py:22 | the result is the matcher's answer exactly when that answer is one of the choices and scores at least the cutoff; otherwise there is none |
| IngredientDb.MatchedName | engine.py:18-22 | a name in the database names matches itself; any match is one of the database names |
| IngredientDb.ExactMatchWins | engine.py:18-19 | with an exact match the fuzzy matcher is irrelevant: any two matchers give the same match |
| IngredientDb.FuzzyMatchAboveCutoff | engine.py:20-22 | without an exact match, a match is the fuzzy matcher's choice and scores at least 85 |
| IngredientDb.FuzzyMatchTaken | engine.py:20-22 | without an exact match, a matcher answer that is a database name scoring at least 85 becomes the match |
| IngredientDb.NoMatchIff | engine.py:20-25 | without an exact match, nothing matches exactly when the matcher gives no answer, or an answer outside the database names or below 85 |
| IngredientDb.Contributes | engine.py:30 | a behaviour record contributes exactly when it is a dict whose `functions` list has some element |
| IngredientDb.Contributed | engine.py:29-31 | an entry without behaviour records contributes no functions |
| IngredientDb.ContributedMembers | engine.py:29-31 | a function is collected exactly when some dict record with a non-empty `functions` list lists it |
| IngredientDb.ContributedEmpty | engine.py:29-32 | nothing is collected exactly when no behaviour record contributes |
| IngredientDb.DatabaseFunctions | engine.py:25-31 | functions come only from a matched name present in the dictionary with a list of behaviours, and then they are its contributed functions |
| IngredientDb.CollectFromDatabase | engine.py:26-31 | the record-by-record `extend` loop collects exactly the contributed functions of the matched entry |
| FunctionAnalysis.DatabaseSource | engine.py:33 | a database source label is never "Heuristic" |
| FunctionAnalysis.DatabaseSourceInjective | engine.py:33 | two database source labels are equal only for the same matched name |
| FunctionAnalysis.LookupFunctions | engine.py:18-31 | the database gives functions only for a matched name; a name among the database names gets its own entry's functions |
| FunctionAnalysis.SourceOf | engine.py:13-33 | the source is "Heuristic" exactly when the database gives no function |
| FunctionAnalysis.SourceIsDatabase | engine.py:13-33 | the source is "Database (Match: m)" exactly when m is the match and its entry has a behaviour list with a contributing record |
| FunctionAnalysis.Heuristics | engine.py:36-38 | the three keyword rules add at most six functions; which ones is stated by `HeuristicsSuggest` |
| FunctionAnalysis.HeuristicsSuggest | engine.py:36-38 | the keyword rules add a function exactly when one of its keywords occurs in the name ("water" only without "aqua") |
| FunctionAnalysis.HeuristicsArePositive | engine.py:36-40 | every function a keyword rule adds is in the positive list |
| FunctionAnalysis.CollectedFunctions | engine.py:13-38 | the collected functions are the database functions when there are any, and the keyword-rule functions otherwise |
| FunctionAnalysis.CollectedBySource | engine.py:25-38 | the keyword rules apply only when the source is "Heuristic", and then they are all that is collected; otherwise the non-empty database functions are |
| FunctionAnalysis.AnyIn | engine.py:42 | `any(...)` is false for an empty candidate or function list |
| FunctionAnalysis.AnyInIff | engine.py:42 | `any(...)` holds exactly when some candidate is among the functions |
| FunctionAnalysis.Classify | engine.py:42 | the classification is one of the two labels; no functions means "Neutral/Functional" |
| FunctionAnalysis.ClassifyIff | engine.py:40-42 | "Positive Impact" exactly when some function is in the positive list |
| FunctionAnalysis.ClassifyBySet | engine.py:41-42 | the classification depends only on the set of functions, so de-duplication and its order do not change it |
| FunctionAnalysis.HeuristicClassification | engine.py:35-42 | a heuristic-sourced name is "Positive Impact" exactly when some keyword rule fires |
| FunctionAnalysis.HeuristicExtractIsPositive | engine.py:36-42 | a heuristic-sourced name containing "extract" gets Antioxidant and is "Positive Impact" |
| FunctionAnalysis.Unique | engine.py:41 | the result has no duplicates and holds exactly the collected functions |
| FunctionAnalysis.AnnotateOne | engine.py:8-42 | one ingredient's source, duplicate-free functions with exactly the collected set, and classification of those functions |
| Analysis.Item.Update | engine.py:44 | `dict.update`: the patch's keys are overwritten, every other key keeps its value |
| Analysis.ExpectedAnnotation | engine.py:8-42 | the annotation an item name determines; a database source always comes with at least one function, and the classification is one of the two labels |
| Analysis.AquaAnnotatedAsWater | engine.py:8-11 | an item named "aqua" in any case is annotated exactly as one named "water" |
| Analysis.ExpectedClassificationIff | engine.py:40-44 | the stored classification is "Positive Impact" exactly when a stored function is a positive one |
| Analysis.PatchAnnotates | engine.py:44 | updating an item with the three annotation values adds exactly those keys and keeps every other key |
| Analysis.AnnotateItem | engine.py:8-44 | the item is updated in place with a patch holding exactly the three annotation keys, with the values `ExpectedAnnotation` gives for the item's name |
| Analysis.Appended | engine.py:45 | after appending item i, the output list is the first i + 1 input items |
| Analysis.AnnotateAt | engine.py:7-45 | one loop pass annotates every position holding the current item and leaves the other positions as they were |
| Analysis.AnalyzeIngredientFunctions | engine.py:2-49 | the output is the input items in order; each item keeps its other keys and gets the expected source, duplicate-free functions and classification for its original name |

## Left out

- Lower-casing covers ASCII letters only: `str.lower()` on other Unicode letters is not modelled.
- The fuzzy matcher `process.extractOne` (engine.py:22) is a parameter. Its scoring algorithm belongs to a third-party library and is not modelled.
- The debug output through `st.write` and `st.text` (engine.py:47-48) is I/O with no effect on the result and is left out.
- `app.py`, data loading (`load_all_data`) and the rest of the analysis pipeline are not part of this model.
- A behaviour record's `functions` value is either a list of strings or missing/`None`. A truthy non-list `functions` value is not represented: `extend` would add a string's characters, a dict's keys or a tuple's elements, and would raise `TypeError` on a number or `True`.
- An ingredient record always has a string `inci_name`, and its `behaviors` is either a list or not. A record without `inci_name` raises in the source and is not modelled.
- A database entry is never an empty dict, so the `if data` test reduces to the entry being present.
- An item without a string `name` makes the source raise. The model requires every item to have one (`HasName`).
- Item dict values are text, lists of text, or numbers. Other Python values are not represented.
- The order of the de-duplicated functions is not modelled. `Unique` picks elements in an arbitrary order, and every contract speaks of the set of functions and the absence of duplicates.
- Names.ToLower: its contract states only the length. `ToLowerAt` gives the per-character result as `LowerChar` of each character, and `LowerChar`'s contract states the letter mapping.
