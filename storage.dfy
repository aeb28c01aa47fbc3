/** The persistent profile of the React rework: best stars per recipe, their total, the
    unlocked recipe ids, the album of finished dishes and the achievements. The browser's
    storage and JSON are outside the model: what was saved arrives as a `Stored` value and
    writing it back is not modelled. */
module Storage {
  import opened Common
  import opened Progress
  import Recipes
  import CompleteScreen

  /** `SavedDish`; its `id` is the recipe id joined with the timestamp, and the optional
      toppings and cooking time are never passed by the game. */
  datatype Dish = Dish(recipeId: string, timestamp: int, rating: CompleteScreen.Rating, stars: int)

  /** `SavedData`. */
  datatype SavedData = SavedData(totalStars: int, unlockedRecipes: seq<string>,
                                 recipeStars: StarTable, album: seq<Dish>, achievements: seq<string>)

  /** `defaultData`: no stars and only the omelette unlocked. */
  const Default := SavedData(0, ["omelette"], [], [], [])

  /** The properties a parsed save actually has; each may be missing. */
  datatype SavedFields = SavedFields(totalStars: Option<int>, unlockedRecipes: Option<seq<string>>,
                                     recipeStars: Option<StarTable>, album: Option<seq<Dish>>,
                                     achievements: Option<seq<string>>)

  /** What the storage holds under the save key: nothing (or the empty string), text that
      does not parse, or a parsed value. A parsed value that is not an object has no
      properties, which is `SavedFields` with every field missing. */
  datatype Stored = Nothing | Unparsable | Parsed(fields: SavedFields)

  function OrElse<T>(o: Option<T>, d: T): T {
    if o.Some? then o.value else d
  }

  /** `load`: the defaults when nothing is saved or parsing fails; otherwise
      `{ ...defaultData, ...parsed }`, each saved property replacing its default. */
  function Load(s: Stored): (d: SavedData)
    ensures !s.Parsed? ==> d == Default
    ensures s.Parsed? ==>
              d.totalStars == OrElse(s.fields.totalStars, Default.totalStars) &&
              d.unlockedRecipes == OrElse(s.fields.unlockedRecipes, Default.unlockedRecipes) &&
              d.recipeStars == OrElse(s.fields.recipeStars, Default.recipeStars) &&
              d.album == OrElse(s.fields.album, Default.album) &&
              d.achievements == OrElse(s.fields.achievements, Default.achievements)
  {
    match s
    case Nothing => Default
    case Unparsable => Default
    case Parsed(f) =>
      SavedData(OrElse(f.totalStars, 0), OrElse(f.unlockedRecipes, ["omelette"]),
                OrElse(f.recipeStars, []), OrElse(f.album, []), OrElse(f.achievements, []))
  }

  /** The properties `save` writes: all of them. */
  function Saved(d: SavedData): SavedFields {
    SavedFields(Some(d.totalStars), Some(d.unlockedRecipes), Some(d.recipeStars), Some(d.album), Some(d.achievements))
  }

  /** Loading what was saved gives the saved profile back. */
  lemma LoadSaved(d: SavedData)
    ensures Load(Parsed(Saved(d))) == d
  {
  }

  /** A parsed save with no recognised property loads as the defaults. */
  lemma LoadEmpty()
    ensures Load(Parsed(SavedFields(None, None, None, None, None))) == Default
  {
  }

  /** A parsed object has distinct property names, so a saved star record does too. */
  predicate WellFormed(s: Stored) {
    s.Parsed? && s.fields.recipeStars.Some? ==> DistinctKeys(s.fields.recipeStars.value)
  }

  /** The `unlockConditions` object of `checkAndUnlockRecipes`, in its entry order. */
  function UnlockTable(): seq<Threshold> {
    [Threshold("omelette", 0), Threshold("cookie", 3), Threshold("pancake", 5),
     Threshold("hamburger", 6), Threshold("cake", 9), Threshold("curry", 12)]
  }

  /** A catalogue recipe's id and requirement, as an unlock row. */
  function Row(r: Recipes.Recipe): Threshold {
    Threshold(r.id, Recipes.Required(r))
  }

  /** The storage table lists the catalogue's own requirements, in another order: the
      catalogue's recipes 0, 1, 4, 2, 3 and 5. */
  lemma UnlockTableMatchesCatalogue()
    ensures |UnlockTable()| == |Recipes.Catalogue()|
    ensures UnlockTable() == [Row(Recipes.Catalogue()[0]), Row(Recipes.Catalogue()[1]), Row(Recipes.Catalogue()[4]),
                              Row(Recipes.Catalogue()[2]), Row(Recipes.Catalogue()[3]), Row(Recipes.Catalogue()[5])]
  {
    assert Row(Recipes.Omelette()) == UnlockTable()[0];
    assert Row(Recipes.Cookie()) == UnlockTable()[1];
    assert Row(Recipes.Pancake()) == UnlockTable()[2];
    assert Row(Recipes.Hamburger()) == UnlockTable()[3];
    assert Row(Recipes.Cake()) == UnlockTable()[4];
    assert Row(Recipes.Curry()) == UnlockTable()[5];
  }

  /** Hence an id qualifies in the storage table exactly when the catalogue's own query
      lists a recipe with that id for the same total. */
  lemma QualifiesAgreesWithCatalogue(total: int, id: string)
    ensures Qualifies(UnlockTable(), total, id) <==>
            exists r :: r in Recipes.GetUnlockedRecipes(total) && r.id == id
  {
    if Qualifies(UnlockTable(), total, id) {
      QualifiedIsListed(total, id);
    }
    if exists r :: r in Recipes.GetUnlockedRecipes(total) && r.id == id {
      var r :| r in Recipes.GetUnlockedRecipes(total) && r.id == id;
      ListedQualifies(total, r);
    }
  }

  lemma QualifiedIsListed(total: int, id: string)
    requires Qualifies(UnlockTable(), total, id)
    ensures exists r :: r in Recipes.GetUnlockedRecipes(total) && r.id == id
  {
    var cat := Recipes.Catalogue();
    UnlockTableMatchesCatalogue();
    var i :| 0 <= i < |UnlockTable()| && UnlockTable()[i].id == id && UnlockTable()[i].required <= total;
    var j := if i == 0 then 0 else if i == 1 then 1 else if i == 2 then 4 else if i == 3 then 2 else if i == 4 then 3 else 5;
    assert Row(cat[j]) == UnlockTable()[i];
    assert cat[j] in Recipes.GetUnlockedRecipes(total);
  }

  /** A member of a sequence sits at some index. */
  lemma IndexOf<T>(s: seq<T>, x: T) returns (j: int)
    requires x in s
    ensures 0 <= j < |s| && s[j] == x
  {
    j :| 0 <= j < |s| && s[j] == x;
  }

  lemma ListedQualifies(total: int, r: Recipes.Recipe)
    requires r in Recipes.GetUnlockedRecipes(total)
    ensures Qualifies(UnlockTable(), total, r.id)
  {
    var cat := Recipes.Catalogue();
    UnlockTableMatchesCatalogue();
    var j := IndexOf(cat, r);
    var i := if j == 0 then 0 else if j == 1 then 1 else if j == 2 then 3 else if j == 3 then 4 else if j == 4 then 2 else 5;
    assert UnlockTable()[i] == Row(cat[j]);
    assert UnlockTable()[i].id == r.id && UnlockTable()[i].required == Recipes.Required(r);
  }

  /** A recipe is unlocked after the pass exactly when it was before or the catalogue's
      query lists it for that total. */
  lemma UnlockAgreesWithCatalogue(unlocked: seq<string>, total: int, id: string)
    ensures id in Unlock(unlocked, UnlockTable(), total) <==>
            id in unlocked || exists r :: r in Recipes.GetUnlockedRecipes(total) && r.id == id
  {
    UnlockMembers(unlocked, UnlockTable(), total, id);
    QualifiesAgreesWithCatalogue(total, id);
  }

  class StorageManager {
    var totalStars: int
    var unlockedRecipes: seq<string>
    var recipeStars: StarTable
    var album: seq<Dish>
    var achievements: seq<string>

    /** The star record is an object, so its keys are distinct. */
    ghost predicate Valid()
      reads this`recipeStars
    {
      DistinctKeys(recipeStars)
    }

    function Data(): SavedData
      reads this
    {
      SavedData(totalStars, unlockedRecipes, recipeStars, album, achievements)
    }

    /** The total agrees with the record; true of the defaults and kept by every operation,
        but not guaranteed by a loaded save. */
    ghost predicate Consistent()
      reads this`totalStars, this`recipeStars
    {
      totalStars == Total(recipeStars)
    }

    /** The constructor: `this.data = this.load()`. */
    constructor (saved: Stored)
      requires WellFormed(saved)
      ensures Valid() && Data() == Load(saved)
    {
      var d := Load(saved);
      totalStars, unlockedRecipes, recipeStars, album, achievements :=
        d.totalStars, d.unlockedRecipes, d.recipeStars, d.album, d.achievements;
    }

    /** `getRecipeStars`: the recorded best, or 0 without a record. */
    method GetRecipeStars(recipeId: string) returns (stars: int)
      requires Valid()
      ensures stars == Lookup(recipeStars, recipeId)
      ensures !HasKey(recipeStars, recipeId) ==> stars == 0
      ensures forall i :: 0 <= i < |recipeStars| && recipeStars[i].key == recipeId ==> stars == recipeStars[i].value
    {
      stars := Lookup(recipeStars, recipeId);
    }

    /** `isRecipeUnlocked`. */
    method IsRecipeUnlocked(recipeId: string) returns (b: bool)
      ensures b <==> recipeId in unlockedRecipes
    {
      b := recipeId in unlockedRecipes;
    }

    /** `completeDish`: the best is replaced only by more stars, and then the total is
        recomputed; the unlock pass runs on the total; the dish goes first in the album,
        which keeps at most 50. The achievements are untouched. */
    method CompleteDish(recipeId: string, stars: int, rating: CompleteScreen.Rating, now: int)
      requires Valid()
      modifies this`recipeStars, this`totalStars, this`unlockedRecipes, this`album
      ensures Valid()
      ensures recipeStars == RecordBest(old(recipeStars), recipeId, stars)
      ensures totalStars == if stars > Lookup(old(recipeStars), recipeId) then Total(recipeStars) else old(totalStars)
      ensures unlockedRecipes == Unlock(old(unlockedRecipes), UnlockTable(), totalStars)
      ensures album == AddNewest(Dish(recipeId, now, rating, stars), old(album))
      ensures old(Consistent()) ==> Consistent()
    {
      RecordDish(recipeId, stars);
      CheckAndUnlockRecipes();
      AddToAlbum(Dish(recipeId, now, rating, stars));
    }

    /** The record half of `completeDish`. */
    method RecordDish(recipeId: string, stars: int)
      requires Valid()
      modifies this`recipeStars, this`totalStars
      ensures Valid()
      ensures recipeStars == RecordBest(old(recipeStars), recipeId, stars)
      ensures totalStars == if stars > Lookup(old(recipeStars), recipeId) then Total(recipeStars) else old(totalStars)
      ensures old(Consistent()) ==> Consistent()
    {
      var prevStars := Lookup(recipeStars, recipeId);
      RecordBestInvariants(recipeStars, recipeId, stars);
      if stars > prevStars {
        recipeStars := Store(recipeStars, recipeId, stars);
        totalStars := Total(recipeStars);
      }
    }

    /** `checkAndUnlockRecipes`: every row whose requirement the total meets and whose id
        is not yet listed is pushed, in table order. */
    method CheckAndUnlockRecipes()
      modifies this`unlockedRecipes
      ensures unlockedRecipes == Unlock(old(unlockedRecipes), UnlockTable(), totalStars)
    {
      var table := UnlockTable();
      var unlocked := unlockedRecipes;
      for i := 0 to |table|
        invariant Unlock(unlocked, table[i..], totalStars) == Unlock(old(unlockedRecipes), table, totalStars)
      {
        assert table[i..][0] == table[i] && table[i..][1..] == table[i + 1..];
        if totalStars >= table[i].required && table[i].id !in unlocked {
          unlocked := unlocked + [table[i].id];
        }
      }
      unlockedRecipes := unlocked;
    }

    /** The album half of `completeDish`. */
    method AddToAlbum(dish: Dish)
      modifies this`album
      ensures album == AddNewest(dish, old(album))
    {
      album := [dish] + album;
      if |album| > AlbumCap {
        album := album[..AlbumCap];
      }
    }

    /** `addAchievement`: true, after appending, exactly when the id was new; the id is
        listed afterwards either way, so a repeated call returns false. */
    method AddAchievement(id: string) returns (added: bool)
      modifies this`achievements
      ensures added <==> id !in old(achievements)
      ensures achievements == if added then old(achievements) + [id] else old(achievements)
      ensures id in achievements
    {
      if id !in achievements {
        achievements := achievements + [id];
        return true;
      }
      return false;
    }

    /** `reset`: back to the defaults. */
    method Reset()
      modifies this
      ensures Valid() && Consistent() && Data() == Default
    {
      totalStars, unlockedRecipes, recipeStars, album, achievements :=
        Default.totalStars, Default.unlockedRecipes, Default.recipeStars, Default.album, Default.achievements;
    }
  }
}
