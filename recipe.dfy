/** The recipe web app (web_enviroments/recipe/src/App.js, the live
    version from line 468 on): the search and filter chain over the
    recipes, the step-by-step view, recipe images, and when the homepage
    content is shown. */
module Recipes {
  import opened Wrappers
  import opened Text
  import opened Seqs

  /** A recipe as `recipes.json` lists it; a missing text field is "". */
  datatype Recipe = Recipe(id: int, name: string, image: string, dietType: string, difficulty: string,
                           ingredients: seq<string>, equipment: seq<string>, steps: seq<string>)

  /** The search and filter controls: the debounced search query, the
      diet and difficulty selections ("" for all), and the values of the
      selected ingredients and equipment. */
  datatype Filters = Filters(query: string, diet: string, difficulty: string,
                             ingredients: seq<string>, equipment: seq<string>)

  /** `list.map(x => x.toLowerCase())`. */
  function LowerAll(xs: seq<string>): (r: seq<string>)
    ensures |r| == |xs| && forall i :: 0 <= i < |xs| ==> r[i] == Lower(xs[i])
  {
    seq(|xs|, i requires 0 <= i < |xs| => Lower(xs[i]))
  }

  /** One `filter` call of the chain, as a value. */
  datatype Test =
    | Always
    | NameHas(query: string)
    | DietIs(diet: string)
    | DifficultyIs(difficulty: string)
    | HasIngredients(values: seq<string>)
    | HasEquipment(values: seq<string>)
    | Both(first: Test, second: Test)

  predicate Accepts(t: Test, r: Recipe) {
    match t
    case Always => true
    case NameHas(q) => Contains(Lower(r.name), q)
    case DietIs(d) => r.dietType != "" && Lower(r.dietType) == Lower(d)
    case DifficultyIs(d) => r.difficulty != "" && Lower(r.difficulty) == Lower(d)
    case HasIngredients(vs) => forall v :: v in vs ==> v in LowerAll(r.ingredients)
    case HasEquipment(vs) => forall v :: v in vs ==> v in LowerAll(r.equipment)
    case Both(a, b) => Accepts(a, r) && Accepts(b, r)
  }

  /** `recipes.filter(test)`: the accepted recipes, in order. */
  function FilterBy(rs: seq<Recipe>, t: Test): (r: seq<Recipe>)
    ensures forall x :: x in r <==> x in rs && Accepts(t, x)
    ensures Sublist(r, rs)
  {
    if rs == [] then []
    else
      var rest := FilterBy(rs[1..], t);
      assert forall x :: x in rs <==> x == rs[0] || x in rs[1..];
      if Accepts(t, rs[0]) then
        assert ([rs[0]] + rest)[1..] == rest;
        [rs[0]] + rest
      else rest
  }

  /** The filter effect: the search on the trimmed, lower-cased query,
      then diet, difficulty, ingredients and equipment, each only when
      set. */
  function Filtered(recipes: seq<Recipe>, f: Filters): seq<Recipe> {
    var q := Lower(Trim(f.query));
    var bySearch := if q != "" then FilterBy(recipes, NameHas(q)) else recipes;
    var byDiet := if f.diet != "" then FilterBy(bySearch, DietIs(f.diet)) else bySearch;
    var byDifficulty := if f.difficulty != "" then FilterBy(byDiet, DifficultyIs(f.difficulty)) else byDiet;
    var byIngredients :=
      if |f.ingredients| > 0 then FilterBy(byDifficulty, HasIngredients(LowerAll(f.ingredients))) else byDifficulty;
    if |f.equipment| > 0 then FilterBy(byIngredients, HasEquipment(LowerAll(f.equipment))) else byIngredients
  }

  /** What the filters ask of a recipe, spelled out: its name contains
      the query, its diet and difficulty are present and match, and it
      lists every selected ingredient and piece of equipment, all compared
      in lower case. */
  predicate Keep(r: Recipe, f: Filters) {
    var q := Lower(Trim(f.query));
    && (q != "" ==> Contains(Lower(r.name), q))
    && (f.diet != "" ==> r.dietType != "" && Lower(r.dietType) == Lower(f.diet))
    && (f.difficulty != "" ==> r.difficulty != "" && Lower(r.difficulty) == Lower(f.difficulty))
    && (forall v :: v in f.ingredients ==> Lower(v) in LowerAll(r.ingredients))
    && (forall v :: v in f.equipment ==> Lower(v) in LowerAll(r.equipment))
  }

  /** The chain as one test. */
  function Spec(f: Filters): Test {
    var q := Lower(Trim(f.query));
    Both(Both(Both(Both(
      if q != "" then NameHas(q) else Always,
      if f.diet != "" then DietIs(f.diet) else Always),
      if f.difficulty != "" then DifficultyIs(f.difficulty) else Always),
      if |f.ingredients| > 0 then HasIngredients(LowerAll(f.ingredients)) else Always),
      if |f.equipment| > 0 then HasEquipment(LowerAll(f.equipment)) else Always)
  }

  lemma FilterByAlways(rs: seq<Recipe>)
    ensures FilterBy(rs, Always) == rs
  {
    if rs != [] {
      FilterByAlways(rs[1..]);
    }
  }

  /** Filtering twice is filtering once by both tests. */
  lemma {:induction false} FilterByTwice(rs: seq<Recipe>, a: Test, b: Test)
    ensures FilterBy(FilterBy(rs, a), b) == FilterBy(rs, Both(a, b))
  {
    if rs != [] {
      FilterByTwice(rs[1..], a, b);
      if Accepts(a, rs[0]) {
        assert ([rs[0]] + FilterBy(rs[1..], a))[1..] == FilterBy(rs[1..], a);
      }
    }
  }

  /** A stage that is skipped is a stage that accepts every recipe. */
  lemma SkippedStage(rs: seq<Recipe>, active: bool, t: Test)
    ensures (if active then FilterBy(rs, t) else rs) == FilterBy(rs, if active then t else Always)
  {
    if !active {
      FilterByAlways(rs);
    }
  }

  /** The filter chain is one filter by all the tests together. */
  lemma FilteredIsOneFilter(recipes: seq<Recipe>, f: Filters)
    ensures Filtered(recipes, f) == FilterBy(recipes, Spec(f))
  {
    var q := Lower(Trim(f.query));
    var t1 := if q != "" then NameHas(q) else Always;
    var t2 := if f.diet != "" then DietIs(f.diet) else Always;
    var t3 := if f.difficulty != "" then DifficultyIs(f.difficulty) else Always;
    var t4 := if |f.ingredients| > 0 then HasIngredients(LowerAll(f.ingredients)) else Always;
    var t5 := if |f.equipment| > 0 then HasEquipment(LowerAll(f.equipment)) else Always;
    var s1 := FilterBy(recipes, t1);
    SkippedStage(recipes, q != "", NameHas(q));
    var s2 := FilterBy(s1, t2);
    SkippedStage(s1, f.diet != "", DietIs(f.diet));
    FilterByTwice(recipes, t1, t2);
    var s3 := FilterBy(s2, t3);
    SkippedStage(s2, f.difficulty != "", DifficultyIs(f.difficulty));
    FilterByTwice(recipes, Both(t1, t2), t3);
    var s4 := FilterBy(s3, t4);
    SkippedStage(s3, |f.ingredients| > 0, HasIngredients(LowerAll(f.ingredients)));
    FilterByTwice(recipes, Both(Both(t1, t2), t3), t4);
    SkippedStage(s4, |f.equipment| > 0, HasEquipment(LowerAll(f.equipment)));
    FilterByTwice(recipes, Both(Both(Both(t1, t2), t3), t4), t5);
  }

  /** The combined test is the spelled-out condition. */
  lemma SpecIsKeep(r: Recipe, f: Filters)
    ensures Accepts(Spec(f), r) <==> Keep(r, f)
  {
    var q := Lower(Trim(f.query));
    var t1 := if q != "" then NameHas(q) else Always;
    var t2 := if f.diet != "" then DietIs(f.diet) else Always;
    var t3 := if f.difficulty != "" then DifficultyIs(f.difficulty) else Always;
    var t4 := if |f.ingredients| > 0 then HasIngredients(LowerAll(f.ingredients)) else Always;
    var t5 := if |f.equipment| > 0 then HasEquipment(LowerAll(f.equipment)) else Always;
    assert Accepts(Spec(f), r) == (Accepts(Both(Both(Both(t1, t2), t3), t4), r) && Accepts(t5, r));
    assert Accepts(Both(Both(Both(t1, t2), t3), t4), r) == (Accepts(Both(Both(t1, t2), t3), r) && Accepts(t4, r));
    assert Accepts(Both(Both(t1, t2), t3), r) == (Accepts(Both(t1, t2), r) && Accepts(t3, r));
    assert Accepts(t1, r) <==> (q != "" ==> Contains(Lower(r.name), q));
    assert Accepts(t2, r) <==> (f.diet != "" ==> r.dietType != "" && Lower(r.dietType) == Lower(f.diet));
    assert Accepts(t3, r) <==> (f.difficulty != "" ==> r.difficulty != "" && Lower(r.difficulty) == Lower(f.difficulty));
    ListedStages(r, f);
  }

  /** The ingredient and equipment stages ask that every selected value,
      lower-cased, is listed by the recipe. */
  lemma ListedStages(r: Recipe, f: Filters)
    ensures Accepts(if |f.ingredients| > 0 then HasIngredients(LowerAll(f.ingredients)) else Always, r)
            <==> forall v :: v in f.ingredients ==> Lower(v) in LowerAll(r.ingredients)
    ensures Accepts(if |f.equipment| > 0 then HasEquipment(LowerAll(f.equipment)) else Always, r)
            <==> forall v :: v in f.equipment ==> Lower(v) in LowerAll(r.equipment)
  {
    LoweredAll(f.ingredients, LowerAll(r.ingredients));
    LoweredAll(f.equipment, LowerAll(r.equipment));
  }

  /** Every lower-cased value is listed iff every value lower-cased is. */
  lemma LoweredAll(values: seq<string>, listed: seq<string>)
    ensures (forall v :: v in LowerAll(values) ==> v in listed) <==>
            (forall v :: v in values ==> Lower(v) in listed)
  {
    var lowered := LowerAll(values);
    forall v | v in values ensures Lower(v) in lowered {
      var i :| 0 <= i < |values| && values[i] == v;
      assert lowered[i] == Lower(v);
    }
    forall w | w in lowered ensures exists v :: v in values && w == Lower(v) {
      var i :| 0 <= i < |lowered| && lowered[i] == w;
      assert values[i] in values;
    }
  }

  /** The filtered list is an order-preserving sublist of the recipes,
      holding exactly the recipes the filters keep. */
  lemma FilteredRecipes(recipes: seq<Recipe>, f: Filters)
    ensures Sublist(Filtered(recipes, f), recipes)
    ensures forall r :: r in Filtered(recipes, f) <==> r in recipes && Keep(r, f)
  {
    FilteredIsOneFilter(recipes, f);
    forall r ensures Accepts(Spec(f), r) <==> Keep(r, f) {
      SpecIsKeep(r, f);
    }
  }

  /** With a blank query and no filter set, every recipe is listed. */
  lemma NoFiltersKeepsAll(recipes: seq<Recipe>, f: Filters)
    requires Trim(f.query) == "" && f.diet == "" && f.difficulty == ""
    requires f.ingredients == [] && f.equipment == []
    ensures Filtered(recipes, f) == recipes
  {
    assert Lower(Trim(f.query)) == "";
  }

  // ---------------------------------------------------------------------
  // Steps

  /** The Previous button: `Math.max(0, i - 1)`. */
  function PreviousStep(i: int): (r: int)
    ensures r >= 0 && r <= (if i > 0 then i else 0)
    ensures i > 0 ==> r == i - 1
  {
    if i - 1 > 0 then i - 1 else 0
  }

  /** The Next button: `Math.min(steps - 1, i + 1)`. */
  function NextStep(i: int, steps: nat): (r: int)
    ensures r <= steps - 1 && r <= i + 1
    ensures i + 1 <= steps - 1 ==> r == i + 1
  {
    if steps - 1 < i + 1 then steps - 1 else i + 1
  }

  /** For a recipe with steps, both buttons keep the index a valid step. */
  lemma StepsStayInRange(i: int, steps: nat)
    requires 0 <= i < steps
    ensures 0 <= PreviousStep(i) < steps && 0 <= NextStep(i, steps) < steps
  {
  }

  /** For a recipe without steps, Next moves the index to -1, before the
      first step. */
  lemma NextWithoutSteps()
    ensures NextStep(0, 0) == -1
  {
  }

  /** The selected recipe and the index of the step shown. */
  class StepView {
    var selected: Option<Recipe>
    var stepIndex: int

    /** The index is a step of the selected recipe whenever it has steps. */
    predicate Valid()
      reads this
    {
      stepIndex >= -1 && (selected.Some? && selected.value.steps != [] ==> stepIndex < |selected.value.steps|) &&
      (selected.Some? && selected.value.steps != [] ==> stepIndex >= 0)
    }

    constructor ()
      ensures selected.None? && stepIndex == 0 && Valid()
    {
      selected, stepIndex := None, 0;
    }

    /** Choosing a recipe; the effect on `selectedRecipe` puts the index
        back to 0 when the selection changes. */
    method SelectRecipe(r: Recipe)
      requires Valid()
      modifies this
      ensures selected == Some(r) && Valid()
      ensures stepIndex == if old(selected) == Some(r) then old(stepIndex) else 0
    {
      if selected != Some(r) {
        stepIndex := 0;
      }
      selected := Some(r);
    }

    method Previous()
      requires Valid() && selected.Some?
      modifies this
      ensures selected == old(selected) && stepIndex == PreviousStep(old(stepIndex)) && Valid()
    {
      stepIndex := PreviousStep(stepIndex);
    }

    method Next()
      requires Valid() && selected.Some?
      modifies this
      ensures selected == old(selected) && stepIndex == NextStep(old(stepIndex), |selected.value.steps|) && Valid()
    {
      stepIndex := NextStep(stepIndex, |selected.value.steps|);
    }
  }

  // ---------------------------------------------------------------------
  // Images and the homepage

  function Placeholder(publicUrl: string): string {
    publicUrl + "/imgs/placeholder.jpg"
  }

  /** `getRecipeImageUrl`: the recipe's image under its name's folder, or
      the placeholder when the recipe, its name or its image is missing. */
  function ImageUrl(recipe: Option<Recipe>, publicUrl: string): (r: string)
    ensures r == Placeholder(publicUrl) <==> recipe.None? || recipe.value.name == "" || recipe.value.image == ""
  {
    if recipe.None? || recipe.value.name == "" || recipe.value.image == "" then Placeholder(publicUrl)
    else
      var tail := recipe.value.name + "/" + recipe.value.image;
      var r := publicUrl + "/imgs/" + tail;
      assert r != Placeholder(publicUrl) by {
        var k := |publicUrl + "/imgs/"|;
        assert r[k..] == tail;
        assert Placeholder(publicUrl)[k..] == "placeholder.jpg";
        assert tail[|recipe.value.name|] == '/';
        assert '/' !in "placeholder.jpg";
      }
      r
  }

  /** The page state `showHomepageContent` reads. */
  datatype Page = Page(recipes: seq<Recipe>, input: string, filters: Filters, loading: bool)

  /** `showHomepageContent`: nothing typed or searched, no filter set,
      and the recipes loaded and non-empty. */
  predicate ShowHomepage(p: Page) {
    && Trim(p.filters.query) == "" && Trim(p.input) == ""
    && p.filters.diet == "" && p.filters.difficulty == ""
    && |p.filters.ingredients| == 0 && |p.filters.equipment| == 0
    && !p.loading && |p.recipes| > 0
  }

  /** The homepage content is shown only over the full, unfiltered list. */
  lemma HomepageListsAll(p: Page)
    requires ShowHomepage(p)
    ensures Filtered(p.recipes, p.filters) == p.recipes && p.recipes != []
  {
    NoFiltersKeepsAll(p.recipes, p.filters);
  }
}
