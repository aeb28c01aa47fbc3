/** The recipe catalogue of the React rework and its two queries: look a recipe up by id,
    and list the recipes a star total unlocks. Names, icons, colours and instructions are
    display text and are left out. */
module Recipes {
  import opened Common

  /** `CookingActionType`. */
  datatype ActionType = Tap | Mix | Cut | Drag | Hold | Draw | Wait

  /** `CookingStep`; the optional fields are absent where the catalogue leaves them out. */
  datatype CookingStep = CookingStep(id: string, kind: ActionType, target: string,
                                     count: Option<int>, timing: Option<bool>, duration: Option<int>)

  /** `Recipe`; `unlockStars` is optional in the type, though every catalogue entry has one. */
  datatype Recipe = Recipe(id: string, unlockStars: Option<int>, steps: seq<CookingStep>)

  function Counted(id: string, kind: ActionType, target: string, count: int): CookingStep {
    CookingStep(id, kind, target, Some(count), None, None)
  }

  function Plain(id: string, kind: ActionType, target: string): CookingStep {
    CookingStep(id, kind, target, None, None, None)
  }

  function Timed(id: string, target: string): CookingStep {
    CookingStep(id, Wait, target, None, Some(true), None)
  }

  function Held(id: string, target: string, seconds: int): CookingStep {
    CookingStep(id, Hold, target, None, None, Some(seconds))
  }

  function Omelette(): Recipe {
    Recipe("omelette", Some(0), OmeletteSteps())
  }

  function OmeletteSteps(): seq<CookingStep> {
    [
      Counted("crack-egg", Tap, "egg", 3), Counted("mix-egg", Mix, "bowl", 10),
      Plain("pour-egg", Drag, "pan"), Held("cook-egg", "pan", 3),
      Counted("fold-omelette", Cut, "omelette", 2), Plain("plate", Drag, "plate"),
      Plain("ketchup", Draw, "ketchup")
    ]
  }

  function Cookie(): Recipe {
    Recipe("cookie", Some(3), CookieSteps())
  }

  function CookieSteps(): seq<CookingStep> {
    [
      Counted("add-flour", Tap, "flour", 3), Counted("add-butter", Tap, "butter", 2),
      Counted("add-sugar", Tap, "sugar", 2), Counted("mix-dough", Mix, "bowl", 15),
      Counted("cut-shapes", Tap, "cutter", 5), Timed("bake", "oven"),
      Plain("decorate", Draw, "icing")
    ]
  }

  function Hamburger(): Recipe {
    Recipe("hamburger", Some(6), HamburgerSteps())
  }

  function HamburgerSteps(): seq<CookingStep> {
    [
      Counted("choose-bun", Tap, "bun", 1), Plain("add-lettuce", Drag, "lettuce"),
      Held("cook-patty", "patty", 4), Counted("flip-patty", Cut, "patty", 1),
      Plain("add-cheese", Drag, "cheese"), Plain("add-patty", Drag, "stack"),
      Counted("add-sauce", Tap, "sauce", 3), Plain("close-burger", Drag, "top-bun")
    ]
  }

  function Cake(): Recipe {
    Recipe("cake", Some(9), CakeSteps())
  }

  function CakeSteps(): seq<CookingStep> {
    [
      Counted("add-flour", Tap, "flour", 3), Counted("add-eggs", Tap, "egg", 3),
      Counted("add-sugar", Tap, "sugar", 2), Counted("mix-batter", Mix, "bowl", 15),
      Timed("bake-cake", "oven"), Counted("spread-cream", Cut, "cream", 5),
      Counted("add-strawberry", Tap, "strawberry", 8), Plain("decorate", Draw, "decoration")
    ]
  }

  function Pancake(): Recipe {
    Recipe("pancake", Some(5), PancakeSteps())
  }

  function PancakeSteps(): seq<CookingStep> {
    [
      Counted("add-flour", Tap, "flour", 3), Counted("add-egg", Tap, "egg", 2),
      Counted("add-milk", Tap, "milk", 3), Counted("mix", Mix, "bowl", 12),
      Plain("pour-batter", Drag, "pan"), Timed("wait-bubbles", "pancake"),
      Counted("flip", Cut, "pancake", 1), Counted("topping", Tap, "topping", 5)
    ]
  }

  function Curry(): Recipe {
    Recipe("curry", Some(12), CurrySteps())
  }

  function CurrySteps(): seq<CookingStep> {
    [
      Counted("cut-potato", Tap, "potato", 4), Counted("cut-carrot", Tap, "carrot", 4),
      Counted("cut-onion", Tap, "onion", 4), Held("cook-meat", "meat", 3),
      Plain("add-vegetables", Drag, "pot"), Counted("stew", Mix, "pot", 10),
      Counted("add-roux", Tap, "roux", 3), Plain("serve", Drag, "plate")
    ]
  }

  /** The exported `recipes` array, in its order. */
  function Catalogue(): seq<Recipe> {
    [Omelette(), Cookie(), Hamburger(), Cake(), Pancake(), Curry()]
  }

  /** `recipe.unlockStars || 0`. */
  function Required(r: Recipe): int {
    if r.unlockStars.Some? then r.unlockStars.value else 0
  }

  /** `Array.prototype.find` by id: the first recipe with that id, or `undefined`. */
  function FindById(rs: seq<Recipe>, id: string): (r: Option<Recipe>)
    ensures r.Some? <==> exists i :: 0 <= i < |rs| && rs[i].id == id
    ensures r.Some? ==> exists i :: 0 <= i < |rs| && rs[i] == r.value && r.value.id == id &&
                          forall j :: 0 <= j < i ==> rs[j].id != id
  {
    if rs == [] then None
    else if rs[0].id == id then Some(rs[0])
    else
      var r := FindById(rs[1..], id);
      assert forall i :: 0 < i < |rs| ==> rs[i] == rs[1..][i - 1];
      r
  }

  /** `getRecipeById`. */
  function GetRecipeById(id: string): (r: Option<Recipe>)
    ensures r.Some? ==> r.value in Catalogue() && r.value.id == id
    ensures r.None? ==> forall x :: x in Catalogue() ==> x.id != id
  {
    FindById(Catalogue(), id)
  }

  /** `Array.prototype.filter` on `(unlockStars || 0) <= stars`. */
  function UnlockedFrom(rs: seq<Recipe>, stars: int): (r: seq<Recipe>)
    ensures |r| <= |rs|
    ensures forall x :: x in r <==> x in rs && Required(x) <= stars
  {
    if rs == [] then []
    else
      var rest := UnlockedFrom(rs[1..], stars);
      assert forall x :: x in rs <==> x == rs[0] || x in rs[1..];
      if Required(rs[0]) <= stars then [rs[0]] + rest else rest
  }

  /** `getUnlockedRecipes`. */
  function GetUnlockedRecipes(stars: int): (r: seq<Recipe>)
    ensures forall x :: x in r <==> x in Catalogue() && Required(x) <= stars
  {
    UnlockedFrom(Catalogue(), stars)
  }

  /** The unlocked recipes keep their catalogue order. */
  lemma {:induction false} UnlockedInOrder(rs: seq<Recipe>, stars: int)
    ensures Subsequence(UnlockedFrom(rs, stars), rs)
  {
    if rs != [] {
      UnlockedInOrder(rs[1..], stars);
      var rest := UnlockedFrom(rs[1..], stars);
      if Required(rs[0]) <= stars {
        assert UnlockedFrom(rs, stars)[1..] == rest;
      }
    }
  }

  /** More stars unlock a superset, and the recipes already unlocked keep their order
      among the newly unlocked ones. */
  lemma {:induction false} UnlockedMonotone(rs: seq<Recipe>, stars: int, more: int)
    requires stars <= more
    ensures Subsequence(UnlockedFrom(rs, stars), UnlockedFrom(rs, more))
  {
    if rs != [] {
      UnlockedMonotone(rs[1..], stars, more);
      var fewer := UnlockedFrom(rs[1..], stars);
      var larger := UnlockedFrom(rs[1..], more);
      if Required(rs[0]) <= stars {
        assert UnlockedFrom(rs, stars) == [rs[0]] + fewer;
        assert UnlockedFrom(rs, more) == [rs[0]] + larger;
        assert ([rs[0]] + fewer)[1..] == fewer && ([rs[0]] + larger)[1..] == larger;
      } else if Required(rs[0]) <= more {
        assert UnlockedFrom(rs, more) == [rs[0]] + larger;
        assert ([rs[0]] + larger)[1..] == larger;
        if fewer != [] {
          assert Subsequence(fewer, ([rs[0]] + larger)[1..]);
        }
      }
    }
  }

  /** The omelette needs no stars, so every non-negative total lists it, and it comes first. */
  lemma OmeletteAlwaysUnlocked(stars: int)
    requires stars >= 0
    ensures Omelette() in GetUnlockedRecipes(stars)
    ensures GetUnlockedRecipes(stars)[0] == Omelette()
  {
    assert Catalogue()[0] == Omelette();
    assert Required(Omelette()) == 0;
  }

  /** Lookup finds every catalogue recipe by its own id. */
  lemma LookupFindsEveryRecipe(r: Recipe)
    requires r in Catalogue()
    ensures GetRecipeById(r.id) == Some(r)
  {
    CatalogueIdsDistinct();
    var i :| 0 <= i < |Catalogue()| && Catalogue()[i] == r;
    var found := GetRecipeById(r.id);
    var k :| 0 <= k < |Catalogue()| && Catalogue()[k] == found.value && found.value.id == r.id &&
             forall j :: 0 <= j < k ==> Catalogue()[j].id != r.id;
    assert k == i;
  }

  /** The catalogue ids are distinct. */
  lemma CatalogueIdsDistinct()
    ensures forall i, j :: 0 <= i < j < |Catalogue()| ==> Catalogue()[i].id != Catalogue()[j].id
  {
  }

  /** Every catalogue recipe has at least one step. */
  lemma CatalogueStepsNonEmpty(r: Recipe)
    requires r in Catalogue()
    ensures |r.steps| > 0
  {
  }
}
