/**
 * The planner's SQLite store (`database`): five tables, the read queries as
 * functions of a snapshot `Db` of the tables, and the writes as methods of a
 * `Store` whose fields are the tables, each proved to move the snapshot by
 * one transition function. A missing table reads as an empty one, so
 * `create_tables` has no effect on the snapshot.
 */
module Database {
  import opened Wrappers
  import opened Components
  import Enums

  /** A row of the `data` table. */
  datatype DataRow = DataRow(mode: int, offset: int)

  /** A row of the `recipe_tags` relation; the table has no key, so a pair
      may occur several times. */
  datatype RecipeTag = RecipeTag(recipeId: int, tagId: int)

  /** `database::models::Tag`: a tag with its accumulated likes. */
  datatype TagRow = TagRow(id: int, likes: int)

  /** `database::models::Recipe`: a row of the history join. */
  datatype StoredRecipe = StoredRecipe(id: int, name: string)

  /** The failures the queries can meet: `fetch_one` finding no row, and
      the panic of `Into<Mode>` on a stored mode other than 0 or 1. */
  datatype StoreError = RowNotFound | InvalidMode(value: int)

  /** The contents of the five tables: `data` rows in insertion order,
      `tags` and `recipes` keyed by their primary key, `previous_recipes`
      and `recipe_tags` in insertion order. */
  datatype Db = Db(data: seq<DataRow>, tags: map<int, int>, recipes: map<int, string>,
                   previousRecipes: seq<int>, recipeTags: seq<RecipeTag>)

  /** What every sequence of the planner's writes keeps: stored modes are 0
      or 1, every `recipe_tags` row points at a stored recipe and a stored
      tag, and every pending recipe is in the history. */
  ghost predicate Consistent(db: Db) {
    (forall i :: 0 <= i < |db.data| ==> db.data[i].mode == 0 || db.data[i].mode == 1)
    && (forall row :: row in db.recipeTags ==> row.recipeId in db.recipes && row.tagId in db.tags)
    && (forall id :: id in db.previousRecipes ==> id in db.recipes)
  }

  /** A pending batch exists only while the store waits for a review: in
      any other mode, and before the `data` row exists, it is empty. */
  predicate PendingOnlyInReview(db: Db) {
    ModeOf(db) != Ok(Enums.Review) ==> db.previousRecipes == []
  }

  // ---------------------------------------------------------------- queries

  /** `tables_exist`: the `data` table has a row, which is exactly when
      reading the mode does not fail for want of a row. */
  predicate TablesExist(db: Db)
    ensures TablesExist(db) <==> ModeOf(db) != Err(RowNotFound)
  {
    |db.data| > 0
  }

  /** `get_mode`: the mode of the first `data` row. */
  function ModeOf(db: Db): (r: Result<Enums.Mode, StoreError>)
    ensures |db.data| == 0 ==> r == Err(RowNotFound)
    ensures |db.data| > 0 ==> (r.Ok? <==> db.data[0].mode == 0 || db.data[0].mode == 1)
    ensures r.Ok? ==> Enums.ModeValue(r.value) == db.data[0].mode
    ensures r.Err? && |db.data| > 0 ==> r.error == InvalidMode(db.data[0].mode)
  {
    if |db.data| == 0 then Err(RowNotFound)
    else match Enums.IntoMode(db.data[0].mode)
      case Some(m) => Ok(m)
      case None => Err(InvalidMode(db.data[0].mode))
  }

  /** `get_offset`: the offset of the first `data` row. The row is decoded
      whole, so a bad mode fails this query too. */
  function OffsetOf(db: Db): (r: Result<int, StoreError>)
    ensures r.Ok? <==> ModeOf(db).Ok?
    ensures r.Ok? ==> r.value == db.data[0].offset
    ensures r.Err? ==> r.error == ModeOf(db).error
  {
    match ModeOf(db)
    case Ok(_) => Ok(db.data[0].offset)
    case Err(e) => Err(e)
  }

  /** `recipe_exists`. In a consistent store a recipe that does not exist
      has no `recipe_tags` rows. */
  predicate RecipeExists(db: Db, recipeId: int)
    ensures Consistent(db) && !RecipeExists(db, recipeId) ==> TagIdsOf(db.recipeTags, recipeId) == []
  {
    TagIdsOfSound(db.recipeTags, recipeId);
    var ids := TagIdsOf(db.recipeTags, recipeId);
    assert ids != [] ==> ids[0] in ids && RecipeTag(recipeId, ids[0]) in db.recipeTags;
    recipeId in db.recipes
  }

  /** The tag ids of the `recipe_tags` rows of one recipe, in row order. */
  function TagIdsOf(rows: seq<RecipeTag>, recipeId: int): (ids: seq<int>)
    ensures |ids| <= |rows|
  {
    if rows == [] then []
    else
      var last := rows[|rows| - 1];
      TagIdsOf(rows[..|rows| - 1], recipeId) + (if last.recipeId == recipeId then [last.tagId] else [])
  }

  /** The `get_tag_by_id` lookups of `get_recipe_tags`, in order; the first
      missing tag fails the whole list. */
  function LookupTags(tags: map<int, int>, ids: seq<int>): (r: Result<seq<TagRow>, StoreError>)
    ensures r.Ok? <==> forall k :: 0 <= k < |ids| ==> ids[k] in tags
    ensures r.Ok? ==> |r.value| == |ids|
    ensures r.Ok? ==> forall k :: 0 <= k < |ids| ==> r.value[k] == TagRow(ids[k], tags[ids[k]])
    ensures r.Err? ==> r.error == RowNotFound
  {
    if ids == [] then Ok([])
    else
      var last := ids[|ids| - 1];
      match LookupTags(tags, ids[..|ids| - 1])
      case Err(e) => Err(e)
      case Ok(init) =>
        if last in tags then Ok(init + [TagRow(last, tags[last])]) else Err(RowNotFound)
  }

  /** `get_recipe_tags`: the tags of one recipe with their likes, one per
      relation row of the recipe, in row order. */
  function RecipeTagsOf(db: Db, recipeId: int): (r: Result<seq<TagRow>, StoreError>)
    ensures r.Ok? <==> forall k :: 0 <= k < |TagIdsOf(db.recipeTags, recipeId)| ==>
                         TagIdsOf(db.recipeTags, recipeId)[k] in db.tags
    ensures r.Err? ==> r.error == RowNotFound
    ensures r.Ok? ==> |r.value| == |TagIdsOf(db.recipeTags, recipeId)|
    ensures r.Ok? ==> forall k :: 0 <= k < |r.value| ==>
              RecipeTag(recipeId, r.value[k].id) in db.recipeTags
              && r.value[k].id in db.tags && r.value[k].likes == db.tags[r.value[k].id]
  {
    TagIdsOfSound(db.recipeTags, recipeId);
    var ids := TagIdsOf(db.recipeTags, recipeId);
    var r := LookupTags(db.tags, ids);
    assert r.Ok? ==> forall k :: 0 <= k < |r.value| ==> r.value[k].id == ids[k];
    r
  }

  /** `get_previous_recipes`: the join of `previous_recipes` with `recipes`,
      in the order of `previous_recipes`. */
  function JoinPrevious(recipes: map<int, string>, ids: seq<int>): (r: seq<StoredRecipe>)
    ensures |r| <= |ids|
  {
    if ids == [] then []
    else
      var last := ids[|ids| - 1];
      JoinPrevious(recipes, ids[..|ids| - 1])
        + (if last in recipes then [StoredRecipe(last, recipes[last])] else [])
  }

  /** `get_previous_recipes`: every row is a pending recipe with its stored
      name; in a consistent store none is dropped and the order is kept. */
  function PreviousRecipesOf(db: Db): (r: seq<StoredRecipe>)
    ensures forall k :: 0 <= k < |r| ==>
              r[k].id in db.previousRecipes && r[k].id in db.recipes && r[k].name == db.recipes[r[k].id]
    ensures Consistent(db) ==>
              |r| == |db.previousRecipes|
              && forall k :: 0 <= k < |r| ==> r[k].id == db.previousRecipes[k]
  {
    PendingJoined(db);
    JoinPreviousSound(db.recipes, db.previousRecipes);
    JoinPrevious(db.recipes, db.previousRecipes)
  }

  // ------------------------------------------------------------ transitions

  /** `populate_data_table`: one row with the column defaults. */
  function WithDataRow(db: Db): (r: Db)
    ensures |r.data| == |db.data| + 1 && r.data[|db.data|] == DataRow(0, 0)
    ensures r.data[..|db.data|] == db.data
    ensures r.(data := db.data) == db
  {
    db.(data := db.data + [DataRow(0, 0)])
  }

  /** `set_mode`: every `data` row takes the mode's value. */
  function WithMode(db: Db, m: Enums.Mode): (r: Db)
    ensures |r.data| == |db.data|
    ensures forall i :: 0 <= i < |r.data| ==>
              r.data[i] == DataRow(Enums.ModeValue(m), db.data[i].offset)
    ensures r.(data := db.data) == db
  {
    db.(data := seq(|db.data|, i requires 0 <= i < |db.data| => db.data[i].(mode := Enums.ModeValue(m))))
  }

  /** `increment_offset`: every `data` row's offset grows by `n`. */
  function WithOffsetAdded(db: Db, n: int): (r: Db)
    ensures |r.data| == |db.data|
    ensures forall i :: 0 <= i < |r.data| ==>
              r.data[i] == DataRow(db.data[i].mode, db.data[i].offset + n)
    ensures r.(data := db.data) == db
  {
    db.(data := seq(|db.data|, i requires 0 <= i < |db.data| => db.data[i].(offset := db.data[i].offset + n)))
  }

  /** `store_tag`: insert-or-ignore with no likes. */
  function WithTag(db: Db, tagId: int): (r: Db)
    ensures r.tags.Keys == db.tags.Keys + {tagId}
    ensures forall t :: t in db.tags ==> r.tags[t] == db.tags[t]
    ensures tagId !in db.tags ==> r.tags[tagId] == 0
    ensures r.(tags := db.tags) == db
  {
    if tagId in db.tags then db else db.(tags := db.tags[tagId := 0])
  }

  /** `store_recipe_tag_relationship`: the tag, then one relation row. */
  function WithRecipeTag(db: Db, recipeId: int, tagId: int): (r: Db)
    ensures r.recipeTags == db.recipeTags + [RecipeTag(recipeId, tagId)]
    ensures r.tags.Keys == db.tags.Keys + {tagId}
    ensures forall t :: t in db.tags ==> r.tags[t] == db.tags[t]
    ensures tagId !in db.tags ==> r.tags[tagId] == 0
    ensures r.(tags := db.tags, recipeTags := db.recipeTags) == db
  {
    var d := WithTag(db, tagId);
    d.(recipeTags := d.recipeTags + [RecipeTag(recipeId, tagId)])
  }

  /** The tag loop of `store_recipe`. */
  function WithRecipeTags(db: Db, recipeId: int, ts: seq<Tag>): Db {
    if ts == [] then db
    else WithRecipeTag(WithRecipeTags(db, recipeId, ts[..|ts| - 1]), recipeId, ts[|ts| - 1].id)
  }

  /** The rows a recipe's tags add to `recipe_tags`. */
  function RelationRows(recipeId: int, ts: seq<Tag>): (rows: seq<RecipeTag>)
    ensures |rows| == |ts|
    ensures forall k :: 0 <= k < |ts| ==> rows[k] == RecipeTag(recipeId, ts[k].id)
  {
    seq(|ts|, k requires 0 <= k < |ts| => RecipeTag(recipeId, ts[k].id))
  }

  function TagSet(ts: seq<Tag>): set<int> {
    set k | 0 <= k < |ts| :: ts[k].id
  }

  /** `store_recipe`: insert-or-ignore the recipe, then relate every one of
      its tags to it, whether or not the recipe was already stored. */
  function WithRecipe(db: Db, recipe: Recipe): (r: Db)
    ensures r.recipes.Keys == db.recipes.Keys + {recipe.id}
    ensures forall id :: id in db.recipes ==> r.recipes[id] == db.recipes[id]
    ensures recipe.id !in db.recipes ==> r.recipes[recipe.id] == recipe.name
    ensures r.recipeTags == db.recipeTags + RelationRows(recipe.id, recipe.tags)
    ensures r.tags.Keys == db.tags.Keys + TagSet(recipe.tags)
    ensures forall t :: t in db.tags ==> r.tags[t] == db.tags[t]
    ensures r.data == db.data && r.previousRecipes == db.previousRecipes
  {
    var d := if recipe.id in db.recipes then db else db.(recipes := db.recipes[recipe.id := recipe.name]);
    WithRecipeTagsEffect(d, recipe.id, recipe.tags);
    WithRecipeTags(d, recipe.id, recipe.tags)
  }

  /** `store_previous_recipe`. */
  function WithPreviousRecipe(db: Db, recipe: Recipe): (r: Db)
    ensures r.previousRecipes == db.previousRecipes + [recipe.id]
    ensures r.(previousRecipes := db.previousRecipes) == db
  {
    db.(previousRecipes := db.previousRecipes + [recipe.id])
  }

  /** `update_tag_likes`: an UPDATE that matches no row changes nothing. */
  function WithLikesAdded(db: Db, tagId: int, value: int): (r: Db)
    ensures r.tags.Keys == db.tags.Keys
    ensures forall t :: t in db.tags ==> r.tags[t] == db.tags[t] + (if t == tagId then value else 0)
    ensures r.(tags := db.tags) == db
  {
    if tagId in db.tags then db.(tags := db.tags[tagId := db.tags[tagId] + value]) else db
  }

  /** `delete_previous_recipes`: only the pending batch is cleared. */
  function WithoutPreviousRecipes(db: Db): (r: Db)
    ensures r.previousRecipes == []
    ensures r.(previousRecipes := db.previousRecipes) == db
  {
    db.(previousRecipes := [])
  }

  // ----------------------------------------------------------------- lemmas

  /** Storing a recipe's tags: one relation row per tag in tag order, every
      tag present afterwards, existing likes untouched, new tags at 0, and
      nothing else changed. */
  lemma WithRecipeTagsEffect(db: Db, recipeId: int, ts: seq<Tag>)
    ensures WithRecipeTags(db, recipeId, ts).recipeTags == db.recipeTags + RelationRows(recipeId, ts)
    ensures WithRecipeTags(db, recipeId, ts).tags.Keys == db.tags.Keys + TagSet(ts)
    ensures forall t :: t in db.tags ==> WithRecipeTags(db, recipeId, ts).tags[t] == db.tags[t]
    ensures forall t :: t in WithRecipeTags(db, recipeId, ts).tags && t !in db.tags ==>
              WithRecipeTags(db, recipeId, ts).tags[t] == 0
    ensures WithRecipeTags(db, recipeId, ts).(tags := db.tags, recipeTags := db.recipeTags) == db
  {
    WithRecipeTagsRows(db, recipeId, ts);
    WithRecipeTagsLikes(db, recipeId, ts);
  }

  lemma {:induction false} WithRecipeTagsRows(db: Db, recipeId: int, ts: seq<Tag>)
    ensures WithRecipeTags(db, recipeId, ts).recipeTags == db.recipeTags + RelationRows(recipeId, ts)
    ensures WithRecipeTags(db, recipeId, ts).(tags := db.tags, recipeTags := db.recipeTags) == db
  {
    if ts != [] {
      var init := ts[..|ts| - 1];
      WithRecipeTagsRows(db, recipeId, init);
      assert RelationRows(recipeId, ts) == RelationRows(recipeId, init) + [RecipeTag(recipeId, ts[|ts| - 1].id)];
    }
  }

  lemma {:induction false} WithRecipeTagsLikes(db: Db, recipeId: int, ts: seq<Tag>)
    ensures WithRecipeTags(db, recipeId, ts).tags.Keys == db.tags.Keys + TagSet(ts)
    ensures forall t :: t in db.tags ==> WithRecipeTags(db, recipeId, ts).tags[t] == db.tags[t]
    ensures forall t :: t in WithRecipeTags(db, recipeId, ts).tags && t !in db.tags ==>
              WithRecipeTags(db, recipeId, ts).tags[t] == 0
  {
    if ts != [] {
      WithRecipeTagsLikes(db, recipeId, ts[..|ts| - 1]);
      TagSetSnoc(ts);
    }
  }

  lemma TagSetSnoc(ts: seq<Tag>)
    requires ts != []
    ensures TagSet(ts) == TagSet(ts[..|ts| - 1]) + {ts[|ts| - 1].id}
  {
    var init := ts[..|ts| - 1];
    forall x | x in TagSet(ts) ensures x in TagSet(init) + {ts[|ts| - 1].id} {
      var k :| 0 <= k < |ts| && ts[k].id == x;
      if k < |init| { assert init[k] == ts[k]; }
    }
    forall x | x in TagSet(init) ensures x in TagSet(ts) {
      var k :| 0 <= k < |init| && init[k].id == x;
      assert ts[k] == init[k];
    }
  }

  /** Every write keeps the store consistent, provided a pending recipe is
      stored before it is marked pending (as `prepare` does). */
  lemma WithRecipeConsistent(db: Db, recipe: Recipe)
    requires Consistent(db)
    ensures Consistent(WithRecipe(db, recipe))
    ensures RecipeExists(WithRecipe(db, recipe), recipe.id)
  {
    var d := if recipe.id in db.recipes then db else db.(recipes := db.recipes[recipe.id := recipe.name]);
    WithRecipeTagsEffect(d, recipe.id, recipe.tags);
    var r := WithRecipe(db, recipe);
    forall row | row in r.recipeTags ensures row.recipeId in r.recipes && row.tagId in r.tags {
      if row !in d.recipeTags {
        var k :| 0 <= k < |RelationRows(recipe.id, recipe.tags)| && RelationRows(recipe.id, recipe.tags)[k] == row;
        assert row.tagId in TagSet(recipe.tags);
      }
    }
  }

  lemma WithPreviousRecipeConsistent(db: Db, recipe: Recipe)
    requires Consistent(db) && RecipeExists(db, recipe.id)
    ensures Consistent(WithPreviousRecipe(db, recipe))
  {
  }

  lemma OtherWritesConsistent(db: Db, m: Enums.Mode, n: int, tagId: int, value: int)
    requires Consistent(db)
    ensures Consistent(WithDataRow(db))
    ensures Consistent(WithMode(db, m))
    ensures Consistent(WithOffsetAdded(db, n))
    ensures Consistent(WithLikesAdded(db, tagId, value))
    ensures Consistent(WithoutPreviousRecipes(db))
  {
    var d := WithDataRow(db);
    assert forall i :: 0 <= i < |d.data| ==> d.data[i] == if i < |db.data| then db.data[i] else DataRow(0, 0);
  }

  /** The recipe history only grows: no write removes a stored recipe or
      renames it. */
  lemma HistoryKept(db: Db, recipe: Recipe, m: Enums.Mode, n: int, tagId: int, value: int)
    ensures WithRecipe(db, recipe).recipes.Keys == db.recipes.Keys + {recipe.id}
    ensures forall id :: id in db.recipes ==> WithRecipe(db, recipe).recipes[id] == db.recipes[id]
    ensures WithDataRow(db).recipes == db.recipes
    ensures WithMode(db, m).recipes == db.recipes
    ensures WithOffsetAdded(db, n).recipes == db.recipes
    ensures WithPreviousRecipe(db, recipe).recipes == db.recipes
    ensures WithLikesAdded(db, tagId, value).recipes == db.recipes
    ensures WithoutPreviousRecipes(db).recipes == db.recipes
  {
    var d := if recipe.id in db.recipes then db else db.(recipes := db.recipes[recipe.id := recipe.name]);
    WithRecipeTagsEffect(d, recipe.id, recipe.tags);
  }

  /** The tag ids `get_recipe_tags` asks for are exactly those related to
      the recipe, each once per relation row. */
  lemma {:induction false} TagIdsOfCount(rows: seq<RecipeTag>, recipeId: int, t: int)
    ensures multiset(TagIdsOf(rows, recipeId))[t] == multiset(rows)[RecipeTag(recipeId, t)]
  {
    if rows != [] {
      var init := rows[..|rows| - 1];
      TagIdsOfCount(init, recipeId, t);
      assert rows == init + [rows[|rows| - 1]];
    }
  }

  /** Every tag id `get_recipe_tags` asks for comes from a relation row of
      the recipe. */
  lemma {:induction false} TagIdsOfSound(rows: seq<RecipeTag>, recipeId: int)
    ensures forall t :: t in TagIdsOf(rows, recipeId) ==> RecipeTag(recipeId, t) in rows
  {
    if rows != [] {
      var init := rows[..|rows| - 1];
      TagIdsOfSound(init, recipeId);
      assert rows == init + [rows[|rows| - 1]];
    }
  }

  /** In a consistent store the history join keeps every pending recipe. */
  lemma PendingJoined(db: Db)
    ensures Consistent(db) ==>
              |JoinPrevious(db.recipes, db.previousRecipes)| == |db.previousRecipes|
              && forall k :: 0 <= k < |db.previousRecipes| ==>
                   JoinPrevious(db.recipes, db.previousRecipes)[k].id == db.previousRecipes[k]
  {
    if Consistent(db) {
      forall k | 0 <= k < |db.previousRecipes| ensures db.previousRecipes[k] in db.recipes {
        var id := db.previousRecipes[k];
        assert id in db.previousRecipes;
        assert forall id :: id in db.previousRecipes ==> id in db.recipes;
      }
      JoinPreviousComplete(db.recipes, db.previousRecipes);
    }
  }

  /** Every row of the history join is a pending id with its stored name. */
  lemma {:induction false} JoinPreviousSound(recipes: map<int, string>, ids: seq<int>)
    ensures forall k :: 0 <= k < |JoinPrevious(recipes, ids)| ==>
              var row := JoinPrevious(recipes, ids)[k];
              row.id in ids && row.id in recipes && row.name == recipes[row.id]
  {
    if ids != [] {
      var init := ids[..|ids| - 1];
      JoinPreviousSound(recipes, init);
      assert ids == init + [ids[|ids| - 1]];
    }
  }

  /** In a consistent store every related tag exists, so `get_recipe_tags`
      cannot fail; a recipe that is not in the history has no tags. */
  lemma RecipeTagsOfConsistent(db: Db, recipeId: int)
    requires Consistent(db)
    ensures RecipeTagsOf(db, recipeId).Ok?
    ensures !RecipeExists(db, recipeId) ==> RecipeTagsOf(db, recipeId) == Ok([])
  {
    var ids := TagIdsOf(db.recipeTags, recipeId);
    forall k | 0 <= k < |ids| ensures ids[k] in db.tags && RecipeTag(recipeId, ids[k]) in db.recipeTags {
      TagIdsOfCount(db.recipeTags, recipeId, ids[k]);
      assert ids[k] in multiset(ids);
    }
    assert |ids| > 0 ==> RecipeTag(recipeId, ids[0]) in db.recipeTags;
  }

  /** In a consistent store the join drops no pending recipe. */
  lemma {:induction false} JoinPreviousComplete(recipes: map<int, string>, ids: seq<int>)
    requires forall k :: 0 <= k < |ids| ==> ids[k] in recipes
    ensures |JoinPrevious(recipes, ids)| == |ids|
    ensures forall k :: 0 <= k < |ids| ==>
              JoinPrevious(recipes, ids)[k] == StoredRecipe(ids[k], recipes[ids[k]])
  {
    if ids != [] {
      var init := ids[..|ids| - 1];
      JoinPreviousComplete(recipes, init);
    }
  }

  // ------------------------------------------------------------------ store

  /** The database file: one field per table. */
  class Store {
    var data: seq<DataRow>
    var tags: map<int, int>
    var recipes: map<int, string>
    var previousRecipes: seq<int>
    var recipeTags: seq<RecipeTag>

    function State(): Db
      reads this
    {
      Db(data, tags, recipes, previousRecipes, recipeTags)
    }

    /** A database file opened for the first time: the tables are empty. */
    constructor ()
      ensures State() == Db([], map[], map[], [], [])
      ensures Consistent(State())
    {
      data, tags, recipes, previousRecipes, recipeTags := [], map[], map[], [], [];
    }

    /** `populate_data_table`. */
    method PopulateDataTable()
      modifies this
      ensures State() == WithDataRow(old(State()))
    {
      data := data + [DataRow(0, 0)];
    }

    /** `set_mode`. */
    method SetMode(m: Enums.Mode)
      modifies this
      ensures State() == WithMode(old(State()), m)
    {
      var value := Enums.ModeValue(m);
      data := seq(|data|, i requires 0 <= i < |data| reads this => data[i].(mode := value));
    }

    /** `increment_offset`. */
    method IncrementOffset(n: int)
      modifies this
      ensures State() == WithOffsetAdded(old(State()), n)
    {
      data := seq(|data|, i requires 0 <= i < |data| reads this => data[i].(offset := data[i].offset + n));
    }

    /** `store_tag`. */
    method StoreTag(tagId: int)
      modifies this
      ensures State() == WithTag(old(State()), tagId)
    {
      if tagId !in tags {
        tags := tags[tagId := 0];
      }
    }

    /** `store_recipe_tag_relationship`. */
    method StoreRecipeTagRelationship(recipeId: int, tagId: int)
      modifies this
      ensures State() == WithRecipeTag(old(State()), recipeId, tagId)
    {
      StoreTag(tagId);
      recipeTags := recipeTags + [RecipeTag(recipeId, tagId)];
    }

    /** `store_recipe`. */
    method StoreRecipe(recipe: Recipe)
      modifies this
      ensures State() == WithRecipe(old(State()), recipe)
    {
      if recipe.id !in recipes {
        recipes := recipes[recipe.id := recipe.name];
      }
      StoreRecipeTags(recipe.id, recipe.tags);
    }

    /** The tag loop of `store_recipe`. */
    method StoreRecipeTags(recipeId: int, ts: seq<Tag>)
      modifies this
      ensures State() == WithRecipeTags(old(State()), recipeId, ts)
    {
      var i := 0;
      while i < |ts|
        invariant 0 <= i <= |ts|
        invariant State() == WithRecipeTags(old(State()), recipeId, ts[..i])
      {
        assert ts[..i + 1][..i] == ts[..i];
        StoreRecipeTagRelationship(recipeId, ts[i].id);
        i := i + 1;
      }
      assert ts[..i] == ts;
    }

    /** `store_previous_recipe`. */
    method StorePreviousRecipe(recipe: Recipe)
      modifies this
      ensures State() == WithPreviousRecipe(old(State()), recipe)
    {
      previousRecipes := previousRecipes + [recipe.id];
    }

    /** `update_tag_likes`. */
    method UpdateTagLikes(tagId: int, value: int)
      modifies this
      ensures State() == WithLikesAdded(old(State()), tagId, value)
    {
      if tagId in tags {
        tags := tags[tagId := tags[tagId] + value];
      }
    }

    /** `delete_previous_recipes`. */
    method DeletePreviousRecipes()
      modifies this
      ensures State() == WithoutPreviousRecipes(old(State()))
    {
      previousRecipes := [];
    }
  }
}
