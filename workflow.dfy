/**
 * The two phases of the planner (`prepare` and `review` in `src/main.rs`)
 * and the dispatch of `main_`, as transitions of the store. What the
 * operator types, the environment, the recipe catalog, the clock and the
 * file system are parameters: `apiKey` is `TASTY_API_KEY`, `nRecipes` the
 * answer to "How many recipes do you want?", `fetch` the catalog page for an
 * offset, a page size and a key, `time` the formatted clock, `filesWritten`
 * whether writing and opening the two files succeeded, and `answer(i)` the
 * rating given to the `i`-th pending recipe.
 */
module Workflow {
  import opened Wrappers
  import opened Components
  import opened ShoppingList
  import opened Database
  import opened Selection
  import Enums

  /** The page size `prepare` asks the catalog for. */
  const PageSize: int := 200

  const RecipeUrlPrefix: string := "https://tasty.co/recipe/"

  /** `PrepareError`: its `CmpError` case exists in the source but is never
      produced, because `make_shopping_list` cannot fail. */
  datatype PrepareError = SqlError(error: StoreError) | EnvError | ReqError | CmpError | FileError

  /** What a successful `prepare` hands the operator: the chosen recipes and
      the text appended to the two files of the day. */
  datatype Artifacts = Artifacts(recipes: seq<Recipe>, shoppingList: string, recipeLinks: string)

  /** The two successful ends of `main_`. */
  datatype Ran = Prepared(artifacts: Artifacts) | Reviewed

  // ------------------------------------------------------------- prepare

  /** The header of a file entry: the time, a rule as long as the time, the
      body and a blank line. */
  function Entry(time: string, body: string): (s: string)
    ensures |s| == 2 * |time| + |body| + 4
    ensures s[..|time|] == time && s[|time|] == '\n'
    ensures forall k :: |time| < k <= 2 * |time| ==> s[k] == '-'
    ensures s[2 * |time| + 1..] == "\n" + body + "\n\n"
  {
    time + "\n" + seq(|time|, _ => '-') + "\n" + body + "\n\n"
  }

  function RecipeLinks(recipes: seq<Recipe>): (links: seq<string>)
    ensures |links| == |recipes|
    ensures forall i :: 0 <= i < |recipes| ==> links[i] == RecipeUrlPrefix + recipes[i].slug
  {
    seq(|recipes|, i requires 0 <= i < |recipes| => RecipeUrlPrefix + recipes[i].slug)
  }

  /** The chosen recipes when every candidate scores the same: the last
      `k` candidates, latest first. */
  function LatestFirst(candidates: seq<Recipe>, k: nat): (r: seq<Recipe>)
    requires k <= |candidates|
    ensures |r| == k
    ensures forall q :: 0 <= q < k ==> r[q] == candidates[|candidates| - 1 - q]
  {
    seq(k, q requires 0 <= q < k => candidates[|candidates| - 1 - q])
  }

  /** `chosen` is what `get_matching_recipes` returns for the candidates:
      they score without failure and `chosen` is their top selection. */
  ghost predicate IsChoice(db: Db, candidates: seq<Recipe>, nRecipes: int, chosen: seq<Recipe>) {
    Scores(db, candidates).Ok?
    && exists sel :: IsTopSelection(sel, Scores(db, candidates).value, TakeCount(nRecipes, |candidates|))
                     && chosen == Pick(candidates, sel)
  }

  /** The writes of `prepare` for the chosen recipes: each is stored in the
      history with its tags and then marked pending. */
  function Recorded(db: Db, recipes: seq<Recipe>): Db {
    if recipes == [] then db
    else
      var last := recipes[|recipes| - 1];
      WithPreviousRecipe(WithRecipe(Recorded(db, recipes[..|recipes| - 1]), last), last)
  }

  /** All writes of a successful `prepare`. */
  function AfterPrepare(db: Db, recipes: seq<Recipe>, nRecipes: int): Db {
    WithMode(WithOffsetAdded(Recorded(db, recipes), nRecipes), Enums.Review)
  }

  function RecipeIds(recipes: seq<Recipe>): (ids: seq<int>)
    ensures |ids| == |recipes|
    ensures forall i :: 0 <= i < |recipes| ==> ids[i] == recipes[i].id
  {
    seq(|recipes|, i requires 0 <= i < |recipes| => recipes[i].id)
  }

  /** The `recipe_tags` rows the chosen recipes add, recipe by recipe. */
  function AllRelationRows(recipes: seq<Recipe>): seq<RecipeTag> {
    if recipes == [] then []
    else
      var last := recipes[|recipes| - 1];
      AllRelationRows(recipes[..|recipes| - 1]) + RelationRows(last.id, last.tags)
  }

  /** The ids of all tags of the chosen recipes. */
  function AllTagIds(recipes: seq<Recipe>): set<int> {
    if recipes == [] then {}
    else AllTagIds(recipes[..|recipes| - 1]) + TagSet(recipes[|recipes| - 1].tags)
  }

  /** The ids of the chosen recipes, as a set. */
  function ChosenIds(recipes: seq<Recipe>): set<int> {
    if recipes == [] then {}
    else ChosenIds(recipes[..|recipes| - 1]) + {recipes[|recipes| - 1].id}
  }

  lemma {:induction false} ChosenIdsMembership(recipes: seq<Recipe>, i: nat)
    requires i < |recipes|
    ensures recipes[i].id in ChosenIds(recipes)
  {
    if i < |recipes| - 1 {
      ChosenIdsMembership(recipes[..|recipes| - 1], i);
    }
  }

  /** Storing one chosen recipe and marking it pending. */
  lemma RecordOneEffect(db: Db, recipe: Recipe)
    ensures WithPreviousRecipe(WithRecipe(db, recipe), recipe).data == db.data
    ensures WithPreviousRecipe(WithRecipe(db, recipe), recipe).previousRecipes == db.previousRecipes + [recipe.id]
    ensures WithPreviousRecipe(WithRecipe(db, recipe), recipe).recipes.Keys == db.recipes.Keys + {recipe.id}
    ensures forall id :: id in db.recipes ==> WithPreviousRecipe(WithRecipe(db, recipe), recipe).recipes[id] == db.recipes[id]
    ensures WithPreviousRecipe(WithRecipe(db, recipe), recipe).recipeTags
            == db.recipeTags + RelationRows(recipe.id, recipe.tags)
    ensures WithPreviousRecipe(WithRecipe(db, recipe), recipe).tags.Keys == db.tags.Keys + TagSet(recipe.tags)
    ensures forall t :: t in db.tags ==> WithPreviousRecipe(WithRecipe(db, recipe), recipe).tags[t] == db.tags[t]
    ensures forall t :: t in WithPreviousRecipe(WithRecipe(db, recipe), recipe).tags && t !in db.tags ==>
              WithPreviousRecipe(WithRecipe(db, recipe), recipe).tags[t] == 0
  {
    var base := if recipe.id in db.recipes then db else db.(recipes := db.recipes[recipe.id := recipe.name]);
    WithRecipeTagsEffect(base, recipe.id, recipe.tags);
    HistoryKept(db, recipe, Enums.Review, 0, 0, 0);
  }

  /** The pending batch gains the chosen recipes, in order. */
  lemma {:induction false} RecordedPending(db: Db, recipes: seq<Recipe>)
    ensures Recorded(db, recipes).data == db.data
    ensures Recorded(db, recipes).previousRecipes == db.previousRecipes + RecipeIds(recipes)
  {
    if recipes != [] {
      var init := recipes[..|recipes| - 1];
      var last := recipes[|recipes| - 1];
      RecordedPending(db, init);
      assert RecipeIds(recipes) == RecipeIds(init) + [last.id];
    }
  }

  /** The history gains the chosen recipes; names already stored are kept. */
  lemma {:induction false} RecordedHistory(db: Db, recipes: seq<Recipe>)
    ensures Recorded(db, recipes).recipes.Keys == db.recipes.Keys + ChosenIds(recipes)
    ensures forall id :: id in db.recipes ==> Recorded(db, recipes).recipes[id] == db.recipes[id]
  {
    if recipes != [] {
      var init := recipes[..|recipes| - 1];
      RecordedHistory(db, init);
      RecordOneEffect(Recorded(db, init), recipes[|recipes| - 1]);
    }
  }

  /** The relation gains one row per tag of each chosen recipe, in order. */
  lemma {:induction false} RecordedRelation(db: Db, recipes: seq<Recipe>)
    ensures Recorded(db, recipes).recipeTags == db.recipeTags + AllRelationRows(recipes)
  {
    if recipes != [] {
      var init := recipes[..|recipes| - 1];
      var last := recipes[|recipes| - 1];
      RecordedRelation(db, init);
      var before := Recorded(db, init);
      assert AllRelationRows(recipes) == AllRelationRows(init) + RelationRows(last.id, last.tags);
      calc {
        Recorded(db, recipes).recipeTags;
        before.recipeTags + RelationRows(last.id, last.tags);
        (db.recipeTags + AllRelationRows(init)) + RelationRows(last.id, last.tags);
        db.recipeTags + AllRelationRows(recipes);
      }
    }
  }

  /** Every tag of a chosen recipe exists afterwards; existing likes are
      untouched and new tags start at 0. */
  lemma {:induction false} RecordedTags(db: Db, recipes: seq<Recipe>)
    ensures Recorded(db, recipes).tags.Keys == db.tags.Keys + AllTagIds(recipes)
    ensures forall t :: t in db.tags ==> Recorded(db, recipes).tags[t] == db.tags[t]
    ensures forall t :: t in Recorded(db, recipes).tags && t !in db.tags ==> Recorded(db, recipes).tags[t] == 0
  {
    if recipes != [] {
      var init := recipes[..|recipes| - 1];
      var last := recipes[|recipes| - 1];
      RecordedTags(db, init);
      RecordOneEffect(Recorded(db, init), last);
      assert Recorded(db, recipes) == WithPreviousRecipe(WithRecipe(Recorded(db, init), last), last);
    }
  }

  /** `prepare` leaves the store in mode Review, with the offset grown by
      the requested count (not by the number chosen). */
  lemma PrepareControl(db: Db, recipes: seq<Recipe>, nRecipes: int)
    requires TablesExist(db)
    ensures ModeOf(AfterPrepare(db, recipes, nRecipes)) == Ok(Enums.Review)
    ensures OffsetOf(db).Ok? ==> OffsetOf(AfterPrepare(db, recipes, nRecipes)) == Ok(OffsetOf(db).value + nRecipes)
  {
    RecordedPending(db, recipes);
    var d := Recorded(db, recipes);
    var o := WithOffsetAdded(d, nRecipes);
    assert o.data[0].offset == db.data[0].offset + nRecipes;
  }

  /** `prepare` puts the chosen recipes in the history and in the pending
      batch and relates them to their tags; stored names and existing likes
      are unchanged and new tags start at 0. */
  lemma PrepareHistory(db: Db, recipes: seq<Recipe>, nRecipes: int)
    ensures AfterPrepare(db, recipes, nRecipes).previousRecipes == db.previousRecipes + RecipeIds(recipes)
    ensures db.recipes.Keys <= AfterPrepare(db, recipes, nRecipes).recipes.Keys
    ensures db.tags.Keys <= AfterPrepare(db, recipes, nRecipes).tags.Keys
    ensures forall i :: 0 <= i < |recipes| ==> RecipeExists(AfterPrepare(db, recipes, nRecipes), recipes[i].id)
    ensures forall id :: id in db.recipes ==> AfterPrepare(db, recipes, nRecipes).recipes[id] == db.recipes[id]
    ensures forall t :: t in db.tags ==> AfterPrepare(db, recipes, nRecipes).tags[t] == db.tags[t]
    ensures forall t :: t in AfterPrepare(db, recipes, nRecipes).tags && t !in db.tags ==>
              AfterPrepare(db, recipes, nRecipes).tags[t] == 0
    ensures AfterPrepare(db, recipes, nRecipes).recipeTags == db.recipeTags + AllRelationRows(recipes)
  {
    RecordedPending(db, recipes);
    RecordedHistory(db, recipes);
    RecordedRelation(db, recipes);
    RecordedTags(db, recipes);
    var d := Recorded(db, recipes);
    var p := AfterPrepare(db, recipes, nRecipes);
    assert p.(data := d.data) == d;
    forall i | 0 <= i < |recipes| ensures recipes[i].id in d.recipes {
      ChosenIdsMembership(recipes, i);
    }
  }

  /** Storing the chosen recipes keeps the store consistent. */
  lemma {:induction false} RecordedConsistent(db: Db, recipes: seq<Recipe>)
    requires Consistent(db)
    ensures Consistent(Recorded(db, recipes))
  {
    if recipes != [] {
      var init := recipes[..|recipes| - 1];
      var last := recipes[|recipes| - 1];
      RecordedConsistent(db, init);
      WithRecipeConsistent(Recorded(db, init), last);
      WithPreviousRecipeConsistent(WithRecipe(Recorded(db, init), last), last);
    }
  }

  lemma AfterPrepareConsistent(db: Db, recipes: seq<Recipe>, nRecipes: int)
    requires Consistent(db)
    ensures Consistent(AfterPrepare(db, recipes, nRecipes))
  {
    RecordedConsistent(db, recipes);
    var d := Recorded(db, recipes);
    OtherWritesConsistent(d, Enums.Review, nRecipes, 0, 0);
    OtherWritesConsistent(WithOffsetAdded(d, nRecipes), Enums.Review, nRecipes, 0, 0);
  }

  /** In a consistent store every candidate scores 0, so `prepare` chooses
      the last `k` candidates of the page, latest first. */
  lemma ConsistentChoiceIsLatest(db: Db, candidates: seq<Recipe>, nRecipes: int, chosen: seq<Recipe>)
    requires Consistent(db)
    requires forall i :: 0 <= i < |candidates| ==> !RecipeExists(db, candidates[i].id)
    requires IsChoice(db, candidates, nRecipes, chosen)
    ensures chosen == LatestFirst(candidates, TakeCount(nRecipes, |candidates|))
  {
    var k := TakeCount(nRecipes, |candidates|);
    UnseenScoreZero(db, candidates);
    var scores: seq<int> := seq(|candidates|, i => 0);
    var sel :| IsTopSelection(sel, Scores(db, candidates).value, k) && chosen == Pick(candidates, sel);
    TiedChoice(candidates, scores, k, sel);
  }

  /** Under equal scores the top selection picks the latest candidates. */
  lemma TiedChoice(candidates: seq<Recipe>, scores: seq<int>, k: nat, sel: seq<int>)
    requires |scores| == |candidates| && k <= |scores|
    requires forall x, y :: 0 <= x < |scores| && 0 <= y < |scores| ==> scores[x] == scores[y]
    requires IsTopSelection(sel, scores, k)
    ensures Pick(candidates, sel) == LatestFirst(candidates, k)
  {
    var latest: seq<int> := seq(k, q => |scores| - 1 - q);
    TiesPickLatest(scores, k);
    TopSelectionUnique(sel, latest, scores, k);
  }

  /** The store writes of `prepare`, recipe by recipe. */
  method RecordRecipes(store: Store, recipes: seq<Recipe>)
    modifies store
    ensures store.State() == Recorded(old(store.State()), recipes)
  {
    var i := 0;
    while i < |recipes|
      invariant 0 <= i <= |recipes|
      invariant store.State() == Recorded(old(store.State()), recipes[..i])
    {
      assert recipes[..i + 1][..i] == recipes[..i];
      store.StoreRecipe(recipes[i]);
      store.StorePreviousRecipe(recipes[i]);
      i := i + 1;
    }
    assert recipes[..i] == recipes;
  }

  /** `prepare`. Nothing is written to the store before the files are
      written, so every failure leaves the store as it was. */
  method Prepare(store: Store, apiKey: Option<string>, nRecipes: int,
                 fetch: (int, int, string) -> Option<seq<Recipe>>,
                 fmt: real -> string, time: string, filesWritten: bool)
    returns (r: Result<Artifacts, PrepareError>)
    modifies store
    ensures apiKey.None? ==> r == Err(EnvError)
    ensures apiKey.Some? && OffsetOf(old(store.State())).Err? ==>
              r == Err(SqlError(OffsetOf(old(store.State())).error))
    ensures apiKey.Some? && OffsetOf(old(store.State())).Ok?
            && fetch(OffsetOf(old(store.State())).value, PageSize, apiKey.value).None? ==>
              r == Err(ReqError)
    ensures apiKey.Some? && OffsetOf(old(store.State())).Ok?
            && fetch(OffsetOf(old(store.State())).value, PageSize, apiKey.value).Some? ==>
              var page := fetch(OffsetOf(old(store.State())).value, PageSize, apiKey.value).value;
              var scores := Scores(old(store.State()), Unseen(old(store.State()), page));
              (scores.Err? ==> r == Err(SqlError(RowNotFound)))
              && (scores.Ok? && !filesWritten ==> r == Err(FileError))
              && (scores.Ok? && filesWritten ==> r.Ok?)
    ensures r.Err? ==> store.State() == old(store.State())
    ensures r.Ok? ==> apiKey.Some? && OffsetOf(old(store.State())).Ok? && filesWritten
    ensures r.Ok? ==> fetch(OffsetOf(old(store.State())).value, PageSize, apiKey.value).Some?
    ensures r.Ok? ==>
              var page := fetch(OffsetOf(old(store.State())).value, PageSize, apiKey.value).value;
              IsChoice(old(store.State()), Unseen(old(store.State()), page), nRecipes, r.value.recipes)
    ensures r.Ok? ==> r.value.shoppingList
                      == Entry(time, Join(Lines(Consolidate(RecipeComponents(r.value.recipes)), fmt)))
    ensures r.Ok? ==> r.value.recipeLinks == Entry(time, Join(RecipeLinks(r.value.recipes)))
    ensures r.Ok? ==> store.State() == AfterPrepare(old(store.State()), r.value.recipes, nRecipes)
    ensures Consistent(old(store.State())) && TablesExist(old(store.State())) && apiKey.Some? && filesWritten
            && fetch(OffsetOf(old(store.State())).value, PageSize, apiKey.value).Some? ==>
              r.Ok? && Consistent(store.State())
              && var page := fetch(OffsetOf(old(store.State())).value, PageSize, apiKey.value).value;
                 var candidates := Unseen(old(store.State()), page);
                 r.value.recipes == LatestFirst(candidates, TakeCount(nRecipes, |candidates|))
  {
    ghost var db := store.State();
    if apiKey.None? {
      return Err(EnvError);
    }
    var key := apiKey.value;
    var offset := OffsetOf(store.State());
    if offset.Err? {
      return Err(SqlError(offset.error));
    }
    var page := fetch(offset.value, PageSize, key);
    if page.None? {
      return Err(ReqError);
    }
    var allRecipes := RemoveDuplicateRecipes(page.value, store);
    ghost var sel;
    var matching;
    matching, sel := GetMatchingRecipes(allRecipes, nRecipes, store);
    if matching.Err? {
      if Consistent(db) {
        forall i | 0 <= i < |allRecipes| ensures RecipeTagsOf(db, allRecipes[i].id).Ok? {
          RecipeTagsOfConsistent(db, allRecipes[i].id);
        }
      }
      return Err(SqlError(matching.error));
    }
    var recipes := matching.value;
    var components := GetComponents(recipes);
    var shoppingList := MakeShoppingList(components, fmt);
    assert shoppingList.Ok?;

    var shoppingListContent := Entry(time, shoppingList.value);
    var recipesContent := Entry(time, Join(RecipeLinks(recipes)));
    if !filesWritten {
      return Err(FileError);
    }

    RecordRecipes(store, recipes);
    store.IncrementOffset(nRecipes);
    store.SetMode(Enums.Review);
    r := Ok(Artifacts(recipes, shoppingListContent, recipesContent));

    if Consistent(db) && TablesExist(db) {
      forall i | 0 <= i < |allRecipes| ensures !RecipeExists(db, allRecipes[i].id) {
        UnseenMembership(db, page.value, allRecipes[i]);
      }
      ConsistentChoiceIsLatest(db, allRecipes, nRecipes, recipes);
      AfterPrepareConsistent(db, recipes, nRecipes);
    }
  }

  // -------------------------------------------------------------- review

  /** `update_tag_likes` for each tag id in turn. */
  function AddLikes(db: Db, ids: seq<int>, value: int): Db {
    if ids == [] then db
    else WithLikesAdded(AddLikes(db, ids[..|ids| - 1], value), ids[|ids| - 1], value)
  }

  /** The rating loop of `review`: each pending recipe's rating is added to
      the likes of each of its tags, once per relation row. */
  function RateAll(db: Db, pending: seq<StoredRecipe>, answer: nat -> Enums.Rating): Db {
    if pending == [] then db
    else
      var last := pending[|pending| - 1];
      AddLikes(RateAll(db, pending[..|pending| - 1], answer), TagIdsOf(db.recipeTags, last.id),
               Enums.RatingValue(answer(|pending| - 1)))
  }

  /** All writes of a successful `review`. */
  function AfterReview(db: Db, answer: nat -> Enums.Rating): Db {
    WithMode(WithoutPreviousRecipes(RateAll(db, PreviousRecipesOf(db), answer)), Enums.Prepare)
  }

  /** `review` completes when the tags of every pending recipe can be read. */
  ghost predicate ReviewSucceeds(db: Db) {
    forall k :: 0 <= k < |PreviousRecipesOf(db)| ==> RecipeTagsOf(db, PreviousRecipesOf(db)[k].id).Ok?
  }

  /** The change of one tag's likes over a review: the sum over pending
      recipes of the rating times the number of relation rows between the
      recipe and the tag. */
  function Gain(rows: seq<RecipeTag>, pending: seq<StoredRecipe>, answer: nat -> Enums.Rating, t: int): int {
    if pending == [] then 0
    else
      var last := pending[|pending| - 1];
      Gain(rows, pending[..|pending| - 1], answer, t)
        + Enums.RatingValue(answer(|pending| - 1)) * multiset(rows)[RecipeTag(last.id, t)]
  }

  lemma Distribute(v: int, c: int)
    ensures v * (c + 1) == v * c + v
  {
  }

  lemma {:induction false} AddLikesEffect(db: Db, ids: seq<int>, value: int)
    ensures AddLikes(db, ids, value).(tags := db.tags) == db
    ensures AddLikes(db, ids, value).tags.Keys == db.tags.Keys
    ensures forall t :: t in db.tags ==> AddLikes(db, ids, value).tags[t] == db.tags[t] + value * multiset(ids)[t]
  {
    if ids != [] {
      var init := ids[..|ids| - 1];
      var last := ids[|ids| - 1];
      AddLikesEffect(db, init, value);
      var d := AddLikes(db, init, value);
      assert AddLikes(db, ids, value) == WithLikesAdded(d, last, value);
      assert multiset(ids) == multiset(init) + multiset{last} by {
        assert ids == init + [last];
      }
      forall t | t in db.tags
        ensures AddLikes(db, ids, value).tags[t] == db.tags[t] + value * multiset(ids)[t]
      {
        var c := multiset(init)[t];
        if t == last {
          assert multiset(ids)[t] == c + 1;
          Distribute(value, c);
        } else {
          assert multiset(ids)[t] == c;
        }
      }
    }
  }

  /** Each tag's likes move by its `Gain`; nothing but likes changes. */
  lemma {:induction false} RateAllEffect(db: Db, pending: seq<StoredRecipe>, answer: nat -> Enums.Rating)
    ensures RateAll(db, pending, answer).(tags := db.tags) == db
    ensures RateAll(db, pending, answer).tags.Keys == db.tags.Keys
    ensures forall t :: t in db.tags ==>
              RateAll(db, pending, answer).tags[t] == db.tags[t] + Gain(db.recipeTags, pending, answer, t)
  {
    if pending != [] {
      var init := pending[..|pending| - 1];
      var last := pending[|pending| - 1];
      RateAllEffect(db, init, answer);
      var ids := TagIdsOf(db.recipeTags, last.id);
      AddLikesEffect(RateAll(db, init, answer), ids, Enums.RatingValue(answer(|pending| - 1)));
      forall t | t in db.tags
        ensures RateAll(db, pending, answer).tags[t] == db.tags[t] + Gain(db.recipeTags, pending, answer, t)
      {
        TagIdsOfCount(db.recipeTags, last.id, t);
      }
    }
  }

  /** `review`'s effect: every tag's likes grow by the ratings of the
      pending recipes related to it, no tag is added or removed, the pending
      batch is emptied, the mode is Prepare, and the history, the relation
      and the offset are untouched. */
  lemma ReviewEffect(db: Db, answer: nat -> Enums.Rating)
    requires TablesExist(db)
    ensures ModeOf(AfterReview(db, answer)) == Ok(Enums.Prepare)
    ensures OffsetOf(db).Ok? ==> OffsetOf(AfterReview(db, answer)) == OffsetOf(db)
    ensures AfterReview(db, answer).previousRecipes == []
    ensures AfterReview(db, answer).tags.Keys == db.tags.Keys
    ensures forall t :: t in db.tags ==>
              AfterReview(db, answer).tags[t] == db.tags[t] + Gain(db.recipeTags, PreviousRecipesOf(db), answer, t)
    ensures AfterReview(db, answer).recipes == db.recipes
    ensures AfterReview(db, answer).recipeTags == db.recipeTags
  {
    RateAllEffect(db, PreviousRecipesOf(db), answer);
  }

  /** A tag related to no pending recipe keeps its likes. */
  lemma {:induction false} UnrelatedTagUnchanged(rows: seq<RecipeTag>, pending: seq<StoredRecipe>,
                                                 answer: nat -> Enums.Rating, t: int)
    requires forall k :: 0 <= k < |pending| ==> RecipeTag(pending[k].id, t) !in rows
    ensures Gain(rows, pending, answer, t) == 0
  {
    if pending != [] {
      UnrelatedTagUnchanged(rows, pending[..|pending| - 1], answer, t);
    }
  }

  lemma AfterReviewConsistent(db: Db, answer: nat -> Enums.Rating)
    requires Consistent(db)
    ensures Consistent(AfterReview(db, answer))
  {
    RateAllEffect(db, PreviousRecipesOf(db), answer);
    var d := RateAll(db, PreviousRecipesOf(db), answer);
    OtherWritesConsistent(d, Enums.Prepare, 0, 0, 0);
    OtherWritesConsistent(WithoutPreviousRecipes(d), Enums.Prepare, 0, 0, 0);
  }

  /** In a consistent store `review` cannot fail. */
  lemma ConsistentReviewSucceeds(db: Db)
    requires Consistent(db)
    ensures ReviewSucceeds(db)
  {
    forall k | 0 <= k < |PreviousRecipesOf(db)| ensures RecipeTagsOf(db, PreviousRecipesOf(db)[k].id).Ok? {
      RecipeTagsOfConsistent(db, PreviousRecipesOf(db)[k].id);
    }
  }

  function RowIds(rows: seq<TagRow>): (ids: seq<int>)
    ensures |ids| == |rows|
    ensures forall k :: 0 <= k < |rows| ==> ids[k] == rows[k].id
  {
    seq(|rows|, k requires 0 <= k < |rows| => rows[k].id)
  }

  /** The inner loop of `review`: one rating added to each tag of a recipe. */
  method AddRating(store: Store, tags: seq<TagRow>, value: int)
    modifies store
    ensures store.State() == AddLikes(old(store.State()), RowIds(tags), value)
  {
    ghost var ids := RowIds(tags);
    var k := 0;
    while k < |tags|
      invariant 0 <= k <= |tags|
      invariant store.State() == AddLikes(old(store.State()), ids[..k], value)
    {
      assert ids[..k + 1][..k] == ids[..k];
      store.UpdateTagLikes(tags[k].id, value);
      k := k + 1;
    }
    assert ids[..k] == ids;
  }

  /** One pass of `review`'s outer loop: read the tags of the `i`-th
      pending recipe and add its rating to each of them. */
  method RateRecipe(store: Store, ghost db: Db, previous: seq<StoredRecipe>, i: nat, answer: nat -> Enums.Rating)
    returns (r: Result<(), StoreError>)
    requires i < |previous|
    requires store.State() == RateAll(db, previous[..i], answer)
    modifies store
    ensures r.Ok? <==> RecipeTagsOf(db, previous[i].id).Ok?
    ensures r.Ok? ==> store.State() == RateAll(db, previous[..i + 1], answer)
    ensures r.Err? ==> store.State() == old(store.State()) && r.error == RowNotFound
  {
    var rating := answer(i);
    RateAllEffect(db, previous[..i], answer);
    var tags := RecipeTagsOf(store.State(), previous[i].id);
    if tags.Err? {
      return Err(tags.error);
    }
    ghost var ids := TagIdsOf(db.recipeTags, previous[i].id);
    assert RowIds(tags.value) == ids;
    AddRating(store, tags.value, Enums.RatingValue(rating));
    assert previous[..i + 1][..i] == previous[..i];
    r := Ok(());
  }

  /** The outer loop of `review` over the pending recipes. */
  method RatePending(store: Store, previous: seq<StoredRecipe>, answer: nat -> Enums.Rating)
    returns (r: Result<(), StoreError>)
    modifies store
    ensures r.Ok? <==> forall k :: 0 <= k < |previous| ==> RecipeTagsOf(old(store.State()), previous[k].id).Ok?
    ensures r.Ok? ==> store.State() == RateAll(old(store.State()), previous, answer)
    ensures r.Err? ==> store.State().(tags := old(store.State()).tags) == old(store.State())
    ensures r.Err? ==> r.error == RowNotFound
  {
    ghost var db := store.State();
    var i := 0;
    while i < |previous|
      invariant 0 <= i <= |previous|
      invariant store.State() == RateAll(db, previous[..i], answer)
      invariant forall k :: 0 <= k < i ==> RecipeTagsOf(db, previous[k].id).Ok?
    {
      r := RateRecipe(store, db, previous, i, answer);
      if r.Err? {
        RateAllEffect(db, previous[..i], answer);
        return;
      }
      forall k | 0 <= k < i + 1 ensures RecipeTagsOf(db, previous[k].id).Ok? {
        if k == i {
          assert RecipeTagsOf(db, previous[i].id).Ok?;
        }
      }
      i := i + 1;
    }
    assert previous[..i] == previous;
    r := Ok(());
  }

  /** `review`. A failed tag lookup ends it after the likes of the recipes
      before it were updated; nothing but likes has changed then. */
  method Review(store: Store, answer: nat -> Enums.Rating) returns (r: Result<(), StoreError>)
    modifies store
    ensures r.Ok? <==> ReviewSucceeds(old(store.State()))
    ensures r.Ok? ==> store.State() == AfterReview(old(store.State()), answer)
    ensures r.Err? ==> store.State().(tags := old(store.State()).tags) == old(store.State())
    ensures r.Err? ==> r.error == RowNotFound
    ensures Consistent(old(store.State())) ==> r.Ok? && Consistent(store.State())
  {
    ghost var db := store.State();
    if Consistent(db) {
      ConsistentReviewSucceeds(db);
    }
    var previous := PreviousRecipesOf(store.State());
    r := RatePending(store, previous, answer);
    if r.Err? {
      return;
    }
    store.DeletePreviousRecipes();
    store.SetMode(Enums.Prepare);
    if Consistent(db) {
      AfterReviewConsistent(db, answer);
    }
  }

  // ---------------------------------------------------------------- main_

  /** The store once `main_` has made sure a `data` row exists: a store
      with the row is left alone; otherwise the row added starts in mode
      Prepare at offset 0 and nothing else changes. */
  function Initialised(db: Db): (r: Db)
    ensures TablesExist(r)
    ensures TablesExist(db) ==> r == db
    ensures !TablesExist(db) ==> ModeOf(r) == Ok(Enums.Prepare) && OffsetOf(r) == Ok(0)
    ensures r.(data := db.data) == db
  {
    if TablesExist(db) then db else WithDataRow(db)
  }

  /** Runs alternate: a prepared store reviews next, a reviewed one
      prepares next. */
  lemma ModesAlternate(db: Db, recipes: seq<Recipe>, nRecipes: int, answer: nat -> Enums.Rating)
    requires TablesExist(db)
    ensures ModeOf(AfterPrepare(db, recipes, nRecipes)) == Ok(Enums.Review)
    ensures ModeOf(AfterReview(db, answer)) == Ok(Enums.Prepare)
  {
    PrepareControl(db, recipes, nRecipes);
    ReviewEffect(db, answer);
  }

  /** Every step of `main_` keeps the pending batch confined to mode
      Review: initialising keeps it, `prepare` fills it and switches to
      Review, `review` empties it and switches to Prepare. */
  lemma MainKeepsPendingOnlyInReview(db: Db, recipes: seq<Recipe>, nRecipes: int, answer: nat -> Enums.Rating)
    ensures PendingOnlyInReview(db) ==> PendingOnlyInReview(Initialised(db))
    ensures PendingOnlyInReview(AfterPrepare(Initialised(db), recipes, nRecipes))
    ensures PendingOnlyInReview(AfterReview(Initialised(db), answer))
  {
    var init := Initialised(db);
    assert init.previousRecipes == db.previousRecipes;
    ModesAlternate(init, recipes, nRecipes, answer);
    ReviewEffect(init, answer);
  }

  /** A recipe chosen once is in the history for good: neither the review
      that follows nor any later prepare offers it again. */
  lemma ChosenNeverOfferedAgain(db: Db, recipes: seq<Recipe>, nRecipes: int, answer: nat -> Enums.Rating,
                                page: seq<Recipe>, i: nat)
    requires i < |recipes|
    ensures recipes[i] !in Unseen(AfterPrepare(db, recipes, nRecipes), page)
    ensures recipes[i] !in Unseen(AfterReview(AfterPrepare(db, recipes, nRecipes), answer), page)
  {
    var prepared := AfterPrepare(db, recipes, nRecipes);
    PrepareHistory(db, recipes, nRecipes);
    RateAllEffect(prepared, PreviousRecipesOf(prepared), answer);
    UnseenMembership(prepared, page, recipes[i]);
    UnseenMembership(AfterReview(prepared, answer), page, recipes[i]);
  }

  /** `main_`: initialise the store on a first run, read the mode and run
      the phase it names. A stored mode other than 0 or 1 ends the run with
      the mode error (the source panics). */
  method Run(store: Store, apiKey: Option<string>, nRecipes: int,
             fetch: (int, int, string) -> Option<seq<Recipe>>,
             fmt: real -> string, time: string, filesWritten: bool,
             answer: nat -> Enums.Rating)
    returns (r: Result<Ran, PrepareError>)
    modifies store
    ensures ModeOf(Initialised(old(store.State()))).Err? ==>
              r == Err(SqlError(ModeOf(Initialised(old(store.State()))).error))
              && store.State() == Initialised(old(store.State()))
    ensures ModeOf(Initialised(old(store.State()))) == Ok(Enums.Prepare) ==>
              (r.Ok? ==> r.value.Prepared?
                         && store.State() == AfterPrepare(Initialised(old(store.State())),
                                                          r.value.artifacts.recipes, nRecipes))
              && (r.Err? ==> store.State() == Initialised(old(store.State())))
    ensures var db := Initialised(old(store.State()));
            ModeOf(db) == Ok(Enums.Prepare) ==>
              OffsetOf(db).Ok?
              && (apiKey.None? ==> r == Err(EnvError))
              && (apiKey.Some? && fetch(OffsetOf(db).value, PageSize, apiKey.value).None? ==> r == Err(ReqError))
              && (apiKey.Some? && fetch(OffsetOf(db).value, PageSize, apiKey.value).Some? ==>
                    var page := fetch(OffsetOf(db).value, PageSize, apiKey.value).value;
                    var scores := Scores(db, Unseen(db, page));
                    (scores.Err? ==> r == Err(SqlError(RowNotFound)))
                    && (scores.Ok? && !filesWritten ==> r == Err(FileError))
                    && (scores.Ok? && filesWritten ==> r.Ok?))
    ensures var db := Initialised(old(store.State()));
            ModeOf(db) == Ok(Enums.Prepare) && r.Ok? ==>
              apiKey.Some? && filesWritten && fetch(OffsetOf(db).value, PageSize, apiKey.value).Some?
              && r.value.Prepared?
              && var page := fetch(OffsetOf(db).value, PageSize, apiKey.value).value;
                 IsChoice(db, Unseen(db, page), nRecipes, r.value.artifacts.recipes)
                 && r.value.artifacts.shoppingList
                    == Entry(time, Join(Lines(Consolidate(RecipeComponents(r.value.artifacts.recipes)), fmt)))
                 && r.value.artifacts.recipeLinks == Entry(time, Join(RecipeLinks(r.value.artifacts.recipes)))
    ensures ModeOf(Initialised(old(store.State()))) == Ok(Enums.Review) ==>
              (r.Ok? <==> ReviewSucceeds(Initialised(old(store.State()))))
              && (r.Ok? ==> r.value == Reviewed
                            && store.State() == AfterReview(Initialised(old(store.State())), answer))
              && (r.Err? ==> r == Err(SqlError(RowNotFound))
                             && store.State().(tags := Initialised(old(store.State())).tags)
                                == Initialised(old(store.State())))
    ensures Consistent(old(store.State())) ==> Consistent(store.State())
    ensures PendingOnlyInReview(old(store.State())) ==> PendingOnlyInReview(store.State())
  {
    if !TablesExist(store.State()) {
      store.PopulateDataTable();
    }
    ghost var db := store.State();
    if Consistent(old(store.State())) {
      OtherWritesConsistent(old(store.State()), Enums.Prepare, 0, 0, 0);
    }
    MainKeepsPendingOnlyInReview(old(store.State()), [], nRecipes, answer);
    var mode := ModeOf(store.State());
    if mode.Err? {
      return Err(SqlError(mode.error));
    }
    if mode.value == Enums.Prepare {
      var prepared := Prepare(store, apiKey, nRecipes, fetch, fmt, time, filesWritten);
      if prepared.Err? {
        return Err(prepared.error);
      }
      r := Ok(Prepared(prepared.value));
      MainKeepsPendingOnlyInReview(old(store.State()), prepared.value.recipes, nRecipes, answer);
      if Consistent(db) {
        AfterPrepareConsistent(db, prepared.value.recipes, nRecipes);
      }
    } else {
      var reviewed := Review(store, answer);
      if reviewed.Err? {
        return Err(SqlError(reviewed.error));
      }
      r := Ok(Reviewed);
    }
  }
}
