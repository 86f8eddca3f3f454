/**
 * Choosing the week's recipes (`utils::remove_duplicate_recipes` and
 * `utils::get_matching_recipes`): drop the candidates already in the
 * history, score the rest by the likes of their stored tags, sort the
 * (candidate, score) pairs stably by ascending score in place, reverse and
 * take `n_recipes`. A candidate is represented in the sorted array by its
 * position in the candidate list.
 */
module Selection {
  import opened Wrappers
  import opened Components
  import opened Database

  // ------------------------------------------------------------ duplicates

  /** The candidates whose id is not in the history, in candidate order. */
  function Unseen(db: Db, recipes: seq<Recipe>): seq<Recipe> {
    if recipes == [] then []
    else
      var last := recipes[|recipes| - 1];
      Unseen(db, recipes[..|recipes| - 1]) + (if RecipeExists(db, last.id) then [] else [last])
  }

  /** `remove_duplicate_recipes`: one `recipe_exists` query per candidate. */
  method RemoveDuplicateRecipes(recipes: seq<Recipe>, store: Store) returns (unique: seq<Recipe>)
    ensures unique == Unseen(store.State(), recipes)
  {
    unique := [];
    var i := 0;
    while i < |recipes|
      invariant 0 <= i <= |recipes|
      invariant unique == Unseen(store.State(), recipes[..i])
    {
      assert recipes[..i + 1][..i] == recipes[..i];
      if !RecipeExists(store.State(), recipes[i].id) {
        unique := unique + [recipes[i]];
      }
      i := i + 1;
    }
    assert recipes[..i] == recipes;
  }

  /** A candidate survives exactly when it is not in the history. */
  lemma {:induction false} UnseenMembership(db: Db, recipes: seq<Recipe>, r: Recipe)
    ensures r in Unseen(db, recipes) <==> r in recipes && !RecipeExists(db, r.id)
  {
    if recipes != [] {
      var init := recipes[..|recipes| - 1];
      UnseenMembership(db, init, r);
      assert recipes == init + [recipes[|recipes| - 1]];
    }
  }

  /** Filtering keeps the candidates' order: it distributes over
      concatenation. */
  lemma {:induction false} UnseenAppend(db: Db, a: seq<Recipe>, b: seq<Recipe>)
    ensures Unseen(db, a + b) == Unseen(db, a) + Unseen(db, b)
  {
    if b != [] {
      var init := b[..|b| - 1];
      UnseenAppend(db, a, init);
      assert (a + b)[..|a + b| - 1] == a + init;
    } else {
      assert a + b == a;
    }
  }

  /** A recipe in the history of some earlier store is never offered again
      by a store whose history contains that one. */
  lemma StoredNeverOfferedAgain(earlier: Db, later: Db, recipes: seq<Recipe>, r: Recipe)
    requires earlier.recipes.Keys <= later.recipes.Keys
    requires RecipeExists(earlier, r.id)
    ensures r !in Unseen(later, recipes)
  {
    UnseenMembership(later, recipes, r);
  }

  // --------------------------------------------------------------- scoring

  /** The `recipe_score` sum over a recipe's tags. */
  function SumLikes(tags: seq<TagRow>): int {
    if tags == [] then 0 else SumLikes(tags[..|tags| - 1]) + tags[|tags| - 1].likes
  }

  /** The scores of the candidates, or the first failing tag lookup. */
  function Scores(db: Db, recipes: seq<Recipe>): (r: Result<seq<int>, StoreError>)
    ensures r.Ok? <==> forall i :: 0 <= i < |recipes| ==> RecipeTagsOf(db, recipes[i].id).Ok?
    ensures r.Ok? ==> |r.value| == |recipes|
    ensures r.Ok? ==> forall i :: 0 <= i < |recipes| ==>
              r.value[i] == SumLikes(RecipeTagsOf(db, recipes[i].id).value)
    ensures r.Err? ==> r.error == RowNotFound
  {
    if recipes == [] then Ok([])
    else
      var last := recipes[|recipes| - 1];
      match Scores(db, recipes[..|recipes| - 1])
      case Err(e) => Err(e)
      case Ok(init) =>
        match RecipeTagsOf(db, last.id)
        case Err(e) => Err(e)
        case Ok(tags) => Ok(init + [SumLikes(tags)])
  }

  /** In a consistent store a candidate outside the history has no tags, so
      every candidate that survived `remove_duplicate_recipes` scores 0. */
  lemma UnseenScoreZero(db: Db, recipes: seq<Recipe>)
    requires Consistent(db)
    requires forall i :: 0 <= i < |recipes| ==> !RecipeExists(db, recipes[i].id)
    ensures Scores(db, recipes) == Ok(seq(|recipes|, i => 0))
  {
    forall i | 0 <= i < |recipes| ensures RecipeTagsOf(db, recipes[i].id) == Ok([]) {
      RecipeTagsOfConsistent(db, recipes[i].id);
    }
    var s := Scores(db, recipes);
    assert s.Ok? && |s.value| == |recipes|;
    forall i | 0 <= i < |recipes| ensures s.value[i] == 0 {
      assert SumLikes([]) == 0;
    }
    assert s.value == seq(|recipes|, i => 0);
  }

  // ------------------------------------------------------------- ranking

  /** `a` comes before `b` in the reversed stable ascending sort: a higher
      score, or an equal score and a later position. */
  predicate Outranks(scores: seq<int>, a: int, b: int) {
    0 <= a < |scores| && 0 <= b < |scores|
    && (scores[a] > scores[b] || (scores[a] == scores[b] && a > b))
  }

  /** `sel` lists `k` distinct candidate positions, best first, and every
      candidate left out is outranked by every one chosen. */
  ghost predicate IsTopSelection(sel: seq<int>, scores: seq<int>, k: nat) {
    |sel| == k
    && (forall q :: 0 <= q < k ==> 0 <= sel[q] < |scores|)
    && (forall q1, q2 :: 0 <= q1 < q2 < k ==> Outranks(scores, sel[q1], sel[q2]))
    && (forall x, q :: 0 <= x < |scores| && x !in sel && 0 <= q < k ==> Outranks(scores, sel[q], x))
  }

  /** `n_recipes as usize` followed by `take`: the cast wraps a negative
      count to a huge one, and `take` stops at the end. */
  function TakeCount(n: int, len: nat): (k: nat)
    ensures k <= len
    ensures 0 <= n < 0x1_0000_0000_0000_0000 ==> k == if n < len then n else len
    ensures -0x8000_0000_0000_0000 <= n < 0 && len <= 0x8000_0000_0000_0000 ==> k == len
  {
    var m := n % 0x1_0000_0000_0000_0000;
    if m < len then m else len
  }

  /** The candidates at the chosen positions, in order. */
  function Pick(recipes: seq<Recipe>, sel: seq<int>): (r: seq<Recipe>)
    requires forall q :: 0 <= q < |sel| ==> 0 <= sel[q] < |recipes|
    ensures |r| == |sel|
    ensures forall q :: 0 <= q < |sel| ==> r[q] == recipes[sel[q]]
  {
    seq(|sel|, q requires 0 <= q < |sel| => recipes[sel[q]])
  }

  /** The top selection is unique: the ranking is a strict total order. */
  lemma TopSelectionUnique(sel1: seq<int>, sel2: seq<int>, scores: seq<int>, k: nat)
    requires IsTopSelection(sel1, scores, k) && IsTopSelection(sel2, scores, k)
    ensures sel1 == sel2
  {
    forall i | 0 <= i < k ensures sel1[i] == sel2[i] {
      SameAt(sel1, sel2, scores, k, i);
    }
  }

  lemma {:induction false} SameAt(sel1: seq<int>, sel2: seq<int>, scores: seq<int>, k: nat, i: nat)
    requires IsTopSelection(sel1, scores, k) && IsTopSelection(sel2, scores, k)
    requires i < k
    ensures sel1[i] == sel2[i]
    decreases i
  {
    forall j | 0 <= j < i ensures sel1[j] == sel2[j] {
      SameAt(sel1, sel2, scores, k, j);
    }
    NotOutranked(sel1, sel2, scores, k, i);
    NotOutranked(sel2, sel1, scores, k, i);
  }

  /** Where two top selections agree on everything before position `i`, the
      one's candidate at `i` does not outrank the other's: it is either the
      same candidate, or a later pick of the other, or left out by it. */
  lemma NotOutranked(sel: seq<int>, other: seq<int>, scores: seq<int>, k: nat, i: nat)
    requires IsTopSelection(sel, scores, k) && IsTopSelection(other, scores, k)
    requires i < k && forall j :: 0 <= j < i ==> sel[j] == other[j]
    ensures !Outranks(scores, sel[i], other[i])
  {
    var a := sel[i];
    forall j | 0 <= j < i ensures other[j] != a {
      assert Outranks(scores, sel[j], sel[i]);
    }
    if a !in other {
      assert Outranks(scores, other[i], a);
    } else {
      var j :| 0 <= j < k && other[j] == a;
      if j > i {
        assert Outranks(scores, other[i], other[j]);
      }
    }
  }

  /** With all scores equal, the top selection is the latest candidates,
      latest first. */
  lemma TiesPickLatest(scores: seq<int>, k: nat)
    requires k <= |scores|
    requires forall x, y :: 0 <= x < |scores| && 0 <= y < |scores| ==> scores[x] == scores[y]
    ensures IsTopSelection(seq(k, q => |scores| - 1 - q), scores, k)
  {
    var sel := seq(k, q => |scores| - 1 - q);
    forall y | |scores| - k <= y < |scores| ensures y in sel {
      assert sel[|scores| - 1 - y] == y;
    }
  }

  // --------------------------------------------------------------- sorting

  /** Strict order of the sorted (position, score) pairs: by score, then by
      position, which is what a stable ascending sort by score produces. */
  predicate Precedes(x: (int, int), y: (int, int)) {
    x.1 < y.1 || (x.1 == y.1 && x.0 < y.0)
  }

  predicate StablySorted(s: seq<(int, int)>) {
    forall p, q :: 0 <= p < q < |s| ==> Precedes(s[p], s[q])
  }

  /** The pairs `(k, scores[k])` the sort starts from. */
  function Scored(scores: seq<int>): (s: seq<(int, int)>)
    ensures |s| == |scores|
    ensures forall k :: 0 <= k < |s| ==> s[k] == (k, scores[k])
  {
    seq(|scores|, k requires 0 <= k < |scores| => (k, scores[k]))
  }

  /** What holds while the pair `x` moves left through `s[..i + 1]`: it sits
      at `j`, the other pairs of the prefix are in order, every pair it has
      passed has a greater score, and every other pair of the prefix came
      from an earlier position. */
  ghost predicate Inserting(s: seq<(int, int)>, i: nat, j: nat, x: (int, int)) {
    j <= i < |s| && s[j] == x
    && (forall p, q :: 0 <= p < q <= i && p != j && q != j ==> Precedes(s[p], s[q]))
    && (forall q :: j < q <= i ==> x.1 < s[q].1)
    && (forall k :: 0 <= k <= i && k != j ==> s[k].0 < x.0)
  }

  /** Swapping the moving pair with a neighbour of greater score keeps the
      description and the contents. */
  lemma InsertStep(s: seq<(int, int)>, i: nat, j: nat, x: (int, int))
    requires Inserting(s, i, j, x) && 0 < j && x.1 < s[j - 1].1
    ensures Inserting(s[j - 1 := s[j]][j := s[j - 1]], i, j - 1, x)
    ensures multiset(s[j - 1 := s[j]][j := s[j - 1]]) == multiset(s)
    ensures s[j - 1 := s[j]][j := s[j - 1]][i + 1..] == s[i + 1..]
  {
    var t := s[j - 1 := s[j]][j := s[j - 1]];
    forall p, q | 0 <= p < q <= i && p != j - 1 && q != j - 1 ensures Precedes(t[p], t[q]) {
      if p == j {
        assert t[p] == s[j - 1];
      } else if q == j {
        assert t[q] == s[j - 1];
      }
    }
  }

  /** When the moving pair stops, it is preceded by everything before it. */
  lemma InsertDone(s: seq<(int, int)>, i: nat, j: nat, x: (int, int))
    requires Inserting(s, i, j, x)
    requires j == 0 || s[j - 1].1 <= x.1
    ensures StablySorted(s[..i + 1])
    ensures forall k :: 0 <= k <= i ==> s[k].0 <= x.0
  {
    forall p, q | 0 <= p < q <= i ensures Precedes(s[p], s[q]) {
      if q == j && p < j - 1 {
        assert Precedes(s[p], s[j - 1]);
      }
    }
  }

  /** One step of the insertion sort: the pair at `i` moves left past every
      pair with a strictly greater score, so equal scores keep their order. */
  method Insert(a: array<(int, int)>, i: nat)
    requires i < a.Length
    requires StablySorted(a[..i])
    requires forall k :: 0 <= k < i ==> a[k].0 < a[i].0
    modifies a
    ensures StablySorted(a[..i + 1])
    ensures forall k :: 0 <= k <= i ==> a[k].0 <= old(a[i].0)
    ensures a[i + 1..] == old(a[i + 1..])
    ensures multiset(a[..]) == multiset(old(a[..]))
  {
    var x := a[i];
    var j := i;
    while j > 0 && x.1 < a[j - 1].1
      invariant Inserting(a[..], i, j, x)
      invariant a[i + 1..] == old(a[i + 1..])
      invariant multiset(a[..]) == multiset(old(a[..]))
    {
      ghost var before := a[..];
      InsertStep(before, i, j, x);
      a[j - 1], a[j] := a[j], a[j - 1];
      assert a[..] == before[j - 1 := before[j]][j := before[j - 1]];
      j := j - 1;
    }
    InsertDone(a[..], i, j, x);
  }

  /** The `sort_by` on scores: a stable ascending sort, in place. */
  method SortByScore(a: array<(int, int)>)
    requires forall k :: 0 <= k < a.Length ==> a[k].0 == k
    modifies a
    ensures StablySorted(a[..])
    ensures multiset(a[..]) == multiset(old(a[..]))
  {
    var i := 0;
    while i < a.Length
      invariant 0 <= i <= a.Length
      invariant StablySorted(a[..i])
      invariant forall k :: 0 <= k < i ==> a[k].0 < i
      invariant a[i..] == old(a[i..])
      invariant multiset(a[..]) == multiset(old(a[..]))
    {
      assert a[i] == old(a[i..])[0];
      Insert(a, i);
      i := i + 1;
    }
    assert a[..a.Length] == a[..];
  }

  /** The sorted pairs are the pairs `(k, scores[k])`, each exactly where
      the permutation put it. */
  lemma SortedEntries(s: seq<(int, int)>, scores: seq<int>)
    requires multiset(s) == multiset(Scored(scores))
    ensures |s| == |scores|
    ensures forall p :: 0 <= p < |s| ==> 0 <= s[p].0 < |s| && s[p].1 == scores[s[p].0]
    ensures forall x :: 0 <= x < |s| ==> (x, scores[x]) in s
  {
    assert |s| == |scores| by {
      assert |multiset(s)| == |multiset(Scored(scores))|;
    }
    forall p | 0 <= p < |s| ensures 0 <= s[p].0 < |s| && s[p].1 == scores[s[p].0] {
      assert s[p] in multiset(Scored(scores));
    }
    forall x | 0 <= x < |s| ensures (x, scores[x]) in s {
      assert Scored(scores)[x] in multiset(s);
    }
  }

  /** `rev` then `take(k)` of the positions of the sorted pairs. */
  function FromBack(s: seq<(int, int)>, k: nat): (sel: seq<int>)
    requires k <= |s|
    ensures |sel| == k
    ensures forall q :: 0 <= q < k ==> sel[q] == s[|s| - 1 - q].0
  {
    if k == 0 then [] else FromBack(s, k - 1) + [s[|s| - k].0]
  }

  /** Reading the sorted pairs from the back gives the top selection. */
  lemma TopOfSorted(s: seq<(int, int)>, scores: seq<int>, k: nat)
    requires StablySorted(s) && multiset(s) == multiset(Scored(scores))
    requires k <= |s|
    ensures |s| == |scores|
    ensures IsTopSelection(FromBack(s, k), scores, k)
  {
    SortedEntries(s, scores);
    var n := |s|;
    var sel := FromBack(s, k);
    forall q1, q2 | 0 <= q1 < q2 < k ensures Outranks(scores, sel[q1], sel[q2]) {
      assert Precedes(s[n - 1 - q2], s[n - 1 - q1]);
    }
    forall y | n - k <= y < n ensures s[y].0 in sel {
      var q := n - 1 - y;
      assert sel[q] == s[y].0;
    }
    forall x, q | 0 <= x < n && x !in sel && 0 <= q < k ensures Outranks(scores, sel[q], x) {
      var p :| 0 <= p < n && s[p] == (x, scores[x]);
      assert p < n - 1 - q;
      assert Precedes(s[p], s[n - 1 - q]);
    }
  }

  /** The scoring loop of `get_matching_recipes`: `recipe_score` sums the
      likes of the tags `get_recipe_tags` returns; a failed lookup ends the
      whole call. */
  method ScoreRecipes(recipes: seq<Recipe>, store: Store) returns (r: Result<seq<int>, StoreError>)
    ensures r == Scores(store.State(), recipes)
  {
    ghost var db := store.State();
    var scores: seq<int> := [];
    var i := 0;
    while i < |recipes|
      invariant 0 <= i <= |recipes|
      invariant Scores(db, recipes[..i]) == Ok(scores)
    {
      assert recipes[..i + 1][..i] == recipes[..i];
      var tags := RecipeTagsOf(store.State(), recipes[i].id);
      if tags.Err? {
        ScoresStopAt(db, recipes, i);
        return Err(tags.error);
      }
      var score := RecipeScore(tags.value);
      scores := scores + [score];
      i := i + 1;
    }
    assert recipes[..i] == recipes;
    r := Ok(scores);
  }

  /** A failed lookup for the `i`-th candidate makes the whole scoring fail. */
  lemma ScoresStopAt(db: Db, recipes: seq<Recipe>, i: nat)
    requires i < |recipes| && RecipeTagsOf(db, recipes[i].id).Err?
    ensures Scores(db, recipes) == Err(RowNotFound)
  {
  }

  /** The accumulation of `recipe_score` over one candidate's tags. */
  method RecipeScore(tags: seq<TagRow>) returns (score: int)
    ensures score == SumLikes(tags)
  {
    score := 0;
    var k := 0;
    while k < |tags|
      invariant 0 <= k <= |tags|
      invariant score == SumLikes(tags[..k])
    {
      assert tags[..k + 1][..k] == tags[..k];
      score := score + tags[k].likes;
      k := k + 1;
    }
    assert tags[..k] == tags;
  }

  /** `get_matching_recipes`: score every candidate, sort stably by
      ascending score, reverse and take `n_recipes`. Returns the chosen
      recipes and, as a ghost, the chosen positions. */
  method GetMatchingRecipes(recipes: seq<Recipe>, nRecipes: int, store: Store)
    returns (r: Result<seq<Recipe>, StoreError>, ghost sel: seq<int>)
    ensures r.Err? <==> Scores(store.State(), recipes).Err?
    ensures r.Err? ==> r.error == RowNotFound
    ensures r.Ok? ==> IsTopSelection(sel, Scores(store.State(), recipes).value, TakeCount(nRecipes, |recipes|))
    ensures r.Ok? ==> r.value == Pick(recipes, sel)
  {
    var scored := ScoreRecipes(recipes, store);
    if scored.Err? {
      return Err(scored.error), [];
    }
    var scores := scored.value;
    var a := new (int, int)[|scores|](k requires 0 <= k < |scores| => (k, scores[k]));
    assert a[..] == Scored(scores);
    SortByScore(a);
    var count := TakeCount(nRecipes, a.Length);
    TopOfSorted(a[..], scores, count);
    sel := FromBack(a[..], count);
    assert |scores| == |recipes|;
    r := Ok(Pick(recipes, FromBack(a[..], count)));
  }
}
