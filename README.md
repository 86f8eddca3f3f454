# Meal planner, modelled in Dafny

The meal planner is a command-line program that alternates between two
phases, remembered in a small SQLite database (`database.db`).

**Prepare.**
- It fetches a page of 200 recipes from the Tasty catalog, starting at the stored offset.
- It drops the recipes it has offered before.
- It scores each remaining candidate by the likes its tags have gathered, and keeps the `n` best.
- It merges their ingredients into a shopping list.
- It appends the shopping list and the recipe links, each under a time header, to two files of the day.
- It records the chosen recipes as pending, advances the offset by `n`, and switches to review mode.

**Review.**
- It asks the operator to rate each pending recipe as dislike, none, like or love (-1, 0, 1, 2).
- It adds the rating to the likes of every tag of that recipe.
- It clears the pending list and switches back to prepare mode.

The model keeps the program's structure, one Dafny file per part of the source:

- `quantity.dfy`: the fraction-glyph table and the quantity parser `parse_float`.
- `components.dfy`: the recipe entities, the sum of two components (`Component + Component`) and `get_components`.
- `shopping_list.dfy`: `make_shopping_list`. Its meaning is given by `Consolidate`, a function that merges the components of one ingredient in order of first appearance; the method itself is a loop that follows the source.
- `enums.dfy`: `Rating` and `Mode`, with their numeric values, parsing and printing.
- `database.dfy`: the five tables as a value `Db` and every query as a function of it. The class `Store` holds the tables as fields, and each write method is proved to move the store by one transition function.
- `selection.dfy`: `remove_duplicate_recipes` and `get_matching_recipes`. The stable ascending sort of the latter is an in-place insertion sort on an array. The result is proved to be the unique "top selection": the `k` best candidates, ties broken in favour of the later one.
- `workflow.dfy`: `prepare`, `review` and `main_` as methods on the store, with what each promises about the errors, the files' contents and the new state.

What the outside world provides enters as parameters:

| parameter | what it stands for |
|---|---|
| `apiKey` | the `TASTY_API_KEY` environment variable |
| `nRecipes` | the operator's answer to "How many recipes do you want?" |
| `answer(i)` | the rating given to the `i`-th pending recipe |
| `fetch` | the catalog page for an offset, a page size and a key |
| `time` | the formatted clock |
| `filesWritten` | whether writing and opening the two files succeeded |
| `fmt` | the number formatting of `f64` |
| `dec` | the decimal parser of `str::parse::<f64>` |

A property worth knowing that the model proves (`Workflow.ConsistentChoiceIsLatest`):
- Scores come from the `recipe_tags` rows of stored recipes.
- `remove_duplicate_recipes` keeps only recipes that are not stored.
- So every candidate scores 0, and `prepare` picks the last `n` candidates of the page, latest first.
- The likes gathered in review never influence a later choice. This is the behaviour of the code as written.

## Model

| member | source | states |
|---|---|---|
| Quantity.Numeric | src/lib.rs:239-264 | a character has a value exactly when it is one of the twenty glyphs of the table, and every value lies in [0, 1] |
| Quantity.WordLength | src/lib.rs:119-148 | the length of the leading non-whitespace run: what precedes it has no whitespace and the next character is whitespace |
| Quantity.SplitWhitespace | src/lib.rs:124 | every token is non-empty and whitespace-free; there are no tokens exactly when the text is all whitespace |
| Quantity.ParseFloat | src/lib.rs:119-148 | `parse_float` as written: an ASCII decimal gives the decimal parser's value and nothing else fails; with two tokens, the whole-part panic happens exactly when the first token is not a number, the glyph panic exactly when the first character of the second token is not a glyph, and otherwise the result is their sum; with one token, the result is the value of the text's first character when that is a glyph and "Not a fraction" otherwise; any other token count, none included, is the "BIG PROBLEM" panic carrying the text |
| Quantity.GlyphIsNotAsciiNorSpace | src/lib.rs:239-260 | every glyph of the table is outside ASCII and is not whitespace |
| Quantity.GlyphAlone | src/lib.rs:140-142 | a lone glyph parses to its table value |
| Quantity.TwoTokens | src/lib.rs:130-139 | a non-ASCII text of two tokens parses to the whole part plus the value of the first character of the second token |
| Quantity.MixedNumber | src/lib.rs:130-139 | "w g" (a decimal, a space and a glyph) parses to the decimal plus the glyph's value |
| Quantity.OneAndAHalf | src/lib.rs:130-139 | "1 ½" parses to 1.5 |
| Quantity.ThreePartsPanic | src/lib.rs:143-145 | a text of three or more tokens that is not an ASCII decimal ends in the panic |
| Quantity.LeadingSpaceGlyphRejected | src/lib.rs:140-142 | a glyph with a leading space is rejected as "Not a fraction" by the code as written |
| Quantity.TrimmedGlyphAccepted | src/lib.rs:140-142 | the corrected parser accepts a glyph surrounded by any whitespace and returns its value |
| Quantity.SplitOfPaddedGlyph | src/lib.rs:124 | a glyph padded with whitespace splits into the single token holding the glyph |
| Quantity.TrimmedAgreesOnUnpadded | src/lib.rs:119-148 | on every text that does not start with whitespace, the empty text included, the corrected parser agrees with the original |
| Components.Add | src/lib.rs:173-202 | the sum fails exactly when the ingredient ids differ; otherwise it is `Merge`: the left ingredient, with one measurement per pair of same-unit measurements |
| Components.AppendMatches | src/lib.rs:187-197 | the inner loop appends the sums of one left measurement with every same-unit right measurement |
| Components.MatchesForSound | src/lib.rs:187-197 | every sum produced for one left measurement comes from a same-unit right measurement |
| Components.MatchesForComplete | src/lib.rs:187-197 | every same-unit right measurement produces its sum |
| Components.PairsSound | src/lib.rs:186-198 | every merged measurement comes from a same-unit pair |
| Components.PairsComplete | src/lib.rs:186-198 | every same-unit pair yields a merged measurement |
| Components.UnmatchedUnitsDropped | src/lib.rs:188-190 | a unit that the right operand lacks disappears from the sum |
| Components.SingleCommonUnit | src/lib.rs:192-196 | two one-measurement components in the same unit sum to one measurement whose quantity is the sum of the two |
| Components.GetComponents | src/lib.rs:37-49 | the loop collects exactly `RecipeComponents`: every section's components, recipe by recipe, in order |
| Components.AppendSections | src/lib.rs:41-45 | the loop over one recipe's sections appends their components in order |
| Components.SectionComponentsMembership | src/lib.rs:41-45 | a component is collected from a recipe exactly when one of its sections holds it |
| Components.RecipeComponentsByRecipe | src/lib.rs:37-49 | a component is collected exactly when some recipe's sections hold it |
| Components.RecipeComponentsMembership | src/lib.rs:37-49 | a component is collected exactly when some section of some recipe holds it |
| ShoppingList.Ids | src/lib.rs:55 | the ingredient ids of a list, one per entry |
| ShoppingList.FirstIndex | src/lib.rs:58-66 | the first position of a value, or the length when the value is absent |
| ShoppingList.IndexOfId | src/lib.rs:59-66 | the first entry of the combined list with a given ingredient id |
| ShoppingList.AbsorbIds | src/lib.rs:57-71 | absorbing a component keeps the id list when the id is present and appends the id when it is new |
| ShoppingList.ConsolidateIds | src/lib.rs:54-71 | the combined list has no repeated ingredient, and it holds exactly the ingredients of the input |
| ShoppingList.ConsolidateOrder | src/lib.rs:54-71 | the combined entries appear in the order of their ingredients' first appearance in the input |
| ShoppingList.GroupAbsent | src/lib.rs:57-71 | no component of an absent ingredient is grouped |
| ShoppingList.GroupPresent | src/lib.rs:57-71 | a present ingredient has a non-empty group |
| ShoppingList.AbsorbContents | src/lib.rs:57-71 | absorbing one component keeps every entry equal to the left-to-right sum of its ingredient's components |
| ShoppingList.ConsolidateContents | src/lib.rs:54-71 | every combined entry is the left-to-right sum (`+`) of all input components with its ingredient |
| ShoppingList.AbsorbAt | src/lib.rs:59-66 | a repeated ingredient replaces its first entry by that entry plus the component |
| ShoppingList.AbsorbNew | src/lib.rs:67-70 | a new ingredient is appended, and so is its id |
| ShoppingList.Line | src/lib.rs:75-99 | a line is the bare ingredient name exactly when the component has no measurement or only zero quantities; the name always starts the line |
| ShoppingList.LineShowsFirstMeasurementOnly | src/lib.rs:85-96 | the line depends on the name and the first measurement only |
| ShoppingList.Lines | src/lib.rs:73-100 | one line per combined component |
| ShoppingList.SplitLines | src/lib.rs:102 | splitting on newlines yields at least one piece |
| ShoppingList.SplitLinesOfLine | src/lib.rs:102 | a newline-free prefix joins the first piece of the split |
| ShoppingList.JoinSplitRoundTrip | src/lib.rs:102 | joining newline-free lines with "\n" and splitting the result gives back the lines |
| ShoppingList.OneLinePerIngredient | src/lib.rs:51-103 | the list has one line per combined entry; the entries hold each ingredient of the input exactly once, in order of first appearance; each line is the line of the left-to-right sum of all components of its ingredient, and starts with the ingredient's name |
| ShoppingList.TwoCupsOfOneIngredient | src/lib.rs:51-103 | two one-cup components of one ingredient give a single line showing the quantity 2 |
| ShoppingList.FirstEntryOf | src/lib.rs:59-66 | the search finds the first combined entry with the ingredient id |
| ShoppingList.AbsorbComponent | src/lib.rs:58-70 | one step of the combining loop is `Absorb`, and the id list stays the ids of the combined list |
| ShoppingList.CombineComponents | src/lib.rs:54-71 | the combining loop computes `Consolidate(components)` |
| ShoppingList.RenderLines | src/lib.rs:73-100 | the rendering loop computes `Lines` |
| ShoppingList.MakeShoppingList | src/lib.rs:51-103 | the result is always Ok: the lines of the consolidated components joined with "\n" |
| Enums.RatingValue | src/lib.rs:365-376 | the value lies in -1..2; it is negative only for dislike and zero only for none |
| Enums.RatingToString | src/lib.rs:392-403 | the printed form is one of the four accepted words |
| Enums.LowerChar | src/lib.rs:382 | ASCII capitals map to their small letters, other characters except the Kelvin sign stay as they are, and no capital remains |
| Enums.Lowercase | src/lib.rs:382 | lowercasing is character by character and keeps the length |
| Enums.RatingFromStr | src/lib.rs:378-390 | parsing succeeds exactly when the lowercased text is one of the four words; the rating then prints as that word; failure carries the prompt message |
| Enums.LowercaseIdempotent | src/lib.rs:382 | lowercasing twice is lowercasing once |
| Enums.CaseInsensitive | src/lib.rs:378-390 | parsing a text is parsing its lowercase form |
| Enums.ParsePrintRoundTrip | src/lib.rs:378-403 | parsing the printed form of a rating gives back the rating |
| Enums.LowerWordFixed | src/lib.rs:382 | a word of small ASCII letters is its own lowercase |
| Enums.ShoutedAnswer | src/lib.rs:378-390 | "LOVE" parses to love, and "DISLIKE" spelt with the Kelvin sign parses to dislike |
| Enums.LowercaseIs | src/lib.rs:382 | the lowercase of a text is determined character by character |
| Enums.ModeValue | src/lib.rs:406-415 | prepare is 0 and review is 1 |
| Enums.IntoMode | src/lib.rs:417-425 | conversion succeeds exactly for 0 and 1 and inverts `ModeValue` |
| Enums.ModeRoundTrip | src/lib.rs:406-425 | converting a mode's value gives back the mode |
| Database.ModeOf | src/lib.rs:499-505 | no `data` row gives the row-not-found error; otherwise the mode of the first row, or the mode error when the stored value is neither 0 nor 1 |
| Database.OffsetOf | src/lib.rs:507-513 | the offset of the first `data` row; it fails exactly when reading the mode fails, and with the same error |
| Database.TablesExist | src/lib.rs:436-442 | the tables exist exactly when a `data` row can be read, i.e. when reading the mode does not fail with row-not-found |
| Database.RecipeExists | src/lib.rs:580-587 | a recipe exists when it is stored; in a consistent store a recipe that does not exist has no relation rows |
| Database.TagIdsOf | src/lib.rs:525-534 | the tag ids are taken from the relation rows of the recipe, so there are never more than the rows |
| Database.TagIdsOfCount | src/lib.rs:525-534 | each tag id occurs as often as its relation row with the recipe |
| Database.TagIdsOfSound | src/lib.rs:525-534 | every tag id taken comes from a relation row of the recipe |
| Database.RecipeTagsOf | src/lib.rs:521-541 | the lookup succeeds exactly when every related tag id is a stored tag, fails only with row-not-found, and returns one row per relation row, each a stored tag related to the recipe with its stored likes |
| Database.LookupTags | src/lib.rs:536-547 | the lookup succeeds exactly when every id is a stored tag, returns one row per id in order with its likes, and fails with row-not-found otherwise |
| Database.RecipeTagsOfConsistent | src/lib.rs:521-541 | in a consistent store the tag lookup of any recipe succeeds, and a recipe never stored has no tags |
| Database.JoinPrevious | src/lib.rs:515-519 | the join yields at most one row per pending id |
| Database.JoinPreviousComplete | src/lib.rs:515-519 | when every pending id is stored, the join yields each pending recipe with its stored name, in order |
| Database.JoinPreviousSound | src/lib.rs:515-519 | every joined row is a pending id that is stored, with its stored name |
| Database.PendingJoined | src/lib.rs:515-519 | in a consistent store the join returns every pending recipe, in pending order |
| Database.PreviousRecipesOf | src/lib.rs:515-519 | every returned recipe is pending and stored, with its stored name; in a consistent store it is exactly the pending batch, in order |
| Database.WithDataRow | src/lib.rs:491-497 | a default row (mode 0, offset 0) is appended, and nothing else changes |
| Database.WithMode | src/lib.rs:571-578 | every `data` row takes the mode's value, and nothing else changes |
| Database.WithOffsetAdded | src/lib.rs:650-656 | every `data` row's offset grows by n, and nothing else changes |
| Database.WithTag | src/lib.rs:589-598 | insert-or-ignore: the tag key is added with likes 0 if new, existing likes are kept, and nothing else changes |
| Database.WithRecipeTag | src/lib.rs:599-615 | the tag is inserted if new with likes 0, existing likes are kept, one relation row is appended, and nothing else changes |
| Database.WithRecipe | src/lib.rs:617-634 | the recipe is inserted if new with its name and stored names are kept; one relation row per tag is appended, its tags are added with existing likes kept; the `data` rows and the pending batch are unchanged |
| Database.RelationRows | src/lib.rs:629-631 | one relation row per tag of the recipe, in order |
| Database.WithPreviousRecipe | src/lib.rs:636-648 | the recipe id is appended to the pending list, and nothing else changes |
| Database.WithLikesAdded | src/lib.rs:549-563 | the tag's likes grow by the value; other tags and tables are unchanged |
| Database.WithoutPreviousRecipes | src/lib.rs:565-569 | the pending list is emptied, and nothing else changes |
| Database.WithRecipeTagsEffect | src/lib.rs:599-631 | storing a recipe's tags appends its relation rows, adds the new tags with likes 0, and keeps existing likes and every other table |
| Database.WithRecipeConsistent | src/lib.rs:617-634 | storing a recipe keeps the store consistent, and the recipe is then stored |
| Database.WithPreviousRecipeConsistent | src/lib.rs:636-648 | marking a stored recipe as pending keeps the store consistent |
| Database.OtherWritesConsistent | src/lib.rs:491-578 | adding the data row, setting the mode, advancing the offset, adding likes and clearing the pending list keep the store consistent |
| Database.HistoryKept | src/lib.rs:491-656 | no write ever removes or renames a stored recipe |
| Database.Store.constructor | src/main.rs:161-164 | a freshly created database is empty and consistent |
| Database.Store.PopulateDataTable | src/lib.rs:491-497 | the write is `WithDataRow` |
| Database.Store.SetMode | src/lib.rs:571-578 | the write is `WithMode` |
| Database.Store.IncrementOffset | src/lib.rs:650-656 | the write is `WithOffsetAdded` |
| Database.Store.StoreTag | src/lib.rs:589-598 | the write is `WithTag` |
| Database.Store.StoreRecipeTagRelationship | src/lib.rs:599-615 | the write stores the tag, then appends the relation row |
| Database.Store.StoreRecipe | src/lib.rs:617-634 | the write inserts the recipe if new, then stores each tag relation in order |
| Database.Store.StoreRecipeTags | src/lib.rs:629-631 | the loop over the tags stores each relation in order |
| Database.Store.StorePreviousRecipe | src/lib.rs:636-648 | the write is `WithPreviousRecipe` |
| Database.Store.UpdateTagLikes | src/lib.rs:549-563 | the write is `WithLikesAdded` |
| Database.Store.DeletePreviousRecipes | src/lib.rs:565-569 | the write is `WithoutPreviousRecipes` |
| Selection.RemoveDuplicateRecipes | src/lib.rs:289-302 | the loop keeps exactly the recipes not yet stored, in order |
| Selection.UnseenMembership | src/lib.rs:289-302 | a recipe survives exactly when it is in the page and not stored |
| Selection.UnseenAppend | src/lib.rs:289-302 | filtering distributes over concatenation |
| Selection.StoredNeverOfferedAgain | src/lib.rs:289-302 | once a recipe is stored, no later store (one that keeps the stored recipes) lets it through |
| Selection.Scores | src/lib.rs:341-349 | scoring succeeds exactly when every candidate's tag lookup does; the score of each candidate is the sum of its tags' likes, and failure is row-not-found |
| Selection.UnseenScoreZero | src/lib.rs:341-349 | in a consistent store every candidate that is not stored scores 0 |
| Selection.TakeCount | src/lib.rs:357 | `take(n as usize)`: a count in the u64 range takes min(n, length), and a negative i64 count takes everything |
| Selection.Pick | src/lib.rs:353-358 | the candidates at the chosen positions, in order |
| Selection.TopSelectionUnique | src/lib.rs:351-358 | the top selection for given scores and count is unique |
| Selection.NotOutranked | src/lib.rs:351-358 | two top selections that agree on a prefix cannot disagree in outranking at the next position |
| Selection.TiesPickLatest | src/lib.rs:351-358 | when all scores are equal, the top selection is the last k positions, latest first |
| Selection.Scored | src/lib.rs:348 | the pairs (position, score) the sort starts from |
| Selection.Insert | src/lib.rs:351 | one insertion step extends the sorted prefix, leaves the rest alone and permutes the array |
| Selection.SortByScore | src/lib.rs:351 | the array ends up ordered by score, ties kept in their original order, and is a permutation of the input |
| Selection.TopOfSorted | src/lib.rs:351-358 | reading k entries from the back of the stably sorted pairs gives the top selection |
| Selection.ScoreRecipes | src/lib.rs:341-349 | the scoring loop computes `Scores` |
| Selection.ScoresStopAt | src/lib.rs:344 | a failed lookup for any candidate fails the whole scoring with row-not-found |
| Selection.RecipeScore | src/lib.rs:342-346 | the score is the sum of the tags' likes |
| Selection.GetMatchingRecipes | src/lib.rs:334-359 | fails exactly when scoring fails, with row-not-found; otherwise returns the candidates of the unique top selection of `TakeCount(n)` |
| Workflow.Entry | src/main.rs:85-90 | an entry is the time, a newline, a rule of dashes as long as the time, a newline, the body and a blank line (two newlines) |
| Workflow.RecipeLinks | src/main.rs:110-114 | one link per chosen recipe, the recipe URL prefix followed by its slug |
| Workflow.LatestFirst | src/lib.rs:353-358 | the last k candidates, latest first |
| Workflow.RecipeIds | src/main.rs:123-126 | the ids of the chosen recipes, in order |
| Workflow.ChosenIdsMembership | src/main.rs:123-126 | every chosen recipe's id is among the ids stored |
| Workflow.RecordOneEffect | src/main.rs:123-126 | storing one chosen recipe and marking it pending: the id joins the history and the pending list, and its tags and relation rows are added, existing likes kept |
| Workflow.RecordedPending | src/main.rs:123-126 | recording appends the chosen ids, in order, to the pending list and leaves the `data` rows alone |
| Workflow.RecordedHistory | src/main.rs:123-126 | recording adds the chosen ids to the stored recipes and keeps every stored name |
| Workflow.RecordedRelation | src/main.rs:123-126 | recording appends all relation rows of the chosen recipes, in order |
| Workflow.RecordedTags | src/main.rs:123-126 | recording adds the chosen recipes' tags, new ones with likes 0, and keeps existing likes |
| Workflow.RecordRecipes | src/main.rs:123-126 | the loop performs `Recorded` |
| Workflow.PrepareControl | src/main.rs:128-129 | after prepare the mode is review and the offset has grown by n |
| Workflow.PrepareHistory | src/main.rs:123-126 | after prepare the chosen recipes are stored and pending, no stored recipe or tag is lost, and likes are untouched |
| Workflow.RecordedConsistent | src/main.rs:123-126 | recording keeps the store consistent |
| Workflow.AfterPrepareConsistent | src/main.rs:123-129 | a successful prepare keeps the store consistent |
| Workflow.TiedChoice | src/lib.rs:351-358 | with equal scores, the top selection picks the last k candidates, latest first |
| Workflow.ConsistentChoiceIsLatest | src/main.rs:62-69 | in a consistent store, prepare's choice is always the last n unseen candidates, latest first |
| Workflow.Prepare | src/main.rs:45-132 | each failure in order (missing key, store, catalog, tag lookup, files) gives its error and leaves the store unchanged; on success the files hold the shopping list and links of the chosen recipes, the choice is the top selection, and the store is `AfterPrepare`; a consistent store with a key, a page and writable files always succeeds and stays consistent |
| Workflow.AddLikesEffect | src/main.rs:146-148 | rating one recipe adds value times the tag's number of relation rows to each tag's likes, and changes nothing else |
| Workflow.RateAllEffect | src/main.rs:137-149 | rating all pending recipes adds to each tag the sum over pending recipes of rating times relation count, and changes nothing else |
| Workflow.ReviewEffect | src/main.rs:134-155 | after review the mode is prepare, the offset is kept, the pending list is empty, recipes and relations are kept, and each tag gains its rating sum |
| Workflow.UnrelatedTagUnchanged | src/main.rs:146-148 | a tag of no pending recipe gains nothing |
| Workflow.AfterReviewConsistent | src/main.rs:134-155 | review keeps the store consistent |
| Workflow.ConsistentReviewSucceeds | src/lib.rs:521-547 | in a consistent store every tag lookup of review succeeds |
| Workflow.RowIds | src/main.rs:146-147 | the ids of the looked-up tag rows, in order |
| Workflow.AddRating | src/main.rs:146-148 | the inner loop adds the rating to each looked-up tag, once per row |
| Workflow.RateRecipe | src/main.rs:137-149 | rating one pending recipe succeeds exactly when its tag lookup does, and then extends the rating of the prefix by one |
| Workflow.RatePending | src/main.rs:137-149 | the outer loop succeeds exactly when every lookup does and then performs `RateAll`; a failure changes only likes |
| Workflow.Review | src/main.rs:134-156 | succeeds exactly when every pending recipe's tags can be looked up, and then performs `AfterReview`; a failure is row-not-found and changes only likes; a consistent store always succeeds and stays consistent |
| Workflow.Initialised | src/main.rs:166-169 | afterwards the tables exist; a store with a `data` row is unchanged; otherwise the new row gives mode Prepare at offset 0, and no other table changes |
| Workflow.ModesAlternate | src/main.rs:128-152 | prepare leaves the store in review mode and review leaves it in prepare mode |
| Workflow.MainKeepsPendingOnlyInReview | src/main.rs:123-180 | `Database.PendingOnlyInReview` (a pending batch exists only in mode Review) survives initialising, and holds after either phase whatever the store was before |
| Workflow.ChosenNeverOfferedAgain | src/main.rs:62-66 | a recipe chosen once is never offered again, neither in the next prepare nor after a review |
| Workflow.Run | src/main.rs:158-180 | the data row is added when missing; a mode error ends the run; in mode Prepare the run fails with the environment, request, row-not-found and file errors exactly as `prepare` does, and on success returns a top-scored choice of the unseen page with both artifacts and the store `AfterPrepare`; in mode Review it succeeds exactly when `review` does, with the store `AfterReview`; a consistent store stays consistent, and a pending batch stays confined to mode Review |

## Left out

- The HTTP call and the JSON decoding of the catalog (`get_recipes_list`) are not modelled. The page is the parameter `fetch`, and a failed request or decoding is its `None`.
- The SQL engine, the connection pool and the failures of `execute` and `connect` are not modelled. Writes never fail in the model; the only store failures are a missing row (`RowNotFound`) and an invalid mode.
- `create_tables` is not modelled. A missing table reads as an empty one, so creating tables has no effect on `Db`.
- The foreign keys are not enforced by the model. Instead `Database.Consistent` states them as an invariant. Every write keeps it, provided the recipe is stored before a relation row or a pending id refers to it, which is the order `store_recipe` and `prepare` use (`Database.WithRecipeConsistent`, `Database.WithPreviousRecipeConsistent`, `Database.OtherWritesConsistent`, `Workflow.RecordedConsistent`, `Workflow.AfterPrepareConsistent`, `Workflow.AfterReviewConsistent`). `WithTag` and `WithRecipeTag` are not proved to keep it as writes on their own: the program only makes them inside `store_recipe`, after the recipe is stored.
- `join_all` runs the tag lookups concurrently. The model performs them in order; the result, and the first error, are the same.
- The order in which SQLite returns the rows of the history join in `get_previous_recipes` is not fixed by the query. The model returns the pending recipes in insertion order.
- `validation_input`, the prompt loop that re-asks until the input parses, is not modelled. Its results are the parameters `nRecipes` and `answer`.
- Files, `chrono`, `open_file`, the spinner, `dotenvy` and the environment are parameters or are left out:
  - the file writes and the opening of the files are the flag `filesWritten`;
  - the clock is `time`;
  - the key is `apiKey`.
- `main` is not modelled beyond `main_`. It only prints "Press enter to exit..." and waits for a line.
- f64 arithmetic and formatting are not modelled: quantities are exact reals and `{:.2}`/integer formatting is the parameter `fmt`. Likewise `str::parse::<f64>` is the parameter `dec`.
- Selection.Scores: does not model i64 overflow of `recipe_score += tag.likes`; scores are unbounded integers.
- Database.WithLikesAdded: does not model i64 overflow of `likes + value`.
- Database.WithOffsetAdded: does not model i64 overflow of `offset + n`.
- Enums.LowerChar: folds only ASCII capitals and the Kelvin sign (U+212A, which lowercases to 'k'). Rust's full Unicode lowercasing is not modelled. No other character lowers to a single ASCII letter; U+0130 lowers to 'i' followed by U+0307, which cannot be part of one of the four words, so which texts parse as a rating is unchanged.
- Workflow.PrepareError: the `CmpError` case is never produced, because `Component + Component` is only applied to components of one ingredient, so `make_shopping_list` cannot fail.
- Database.ModeOf: the panic of `Into<Mode>` on a stored mode other than 0 or 1 is modelled as the error `InvalidMode`, which `main_` returns.
- Workflow.Prepare: the panics of `parse_float` happen while the catalog page is decoded, which is inside `fetch`, so they are not among `Prepare`'s outcomes; `Quantity.ParseFloat` models them on its own.
- Selection.GetMatchingRecipes: a candidate is identified by its position in the page. The chosen positions are returned as a ghost value alongside the recipes.

## Findings

| source | as written | input that shows it | evidently intended | confidence | as-written member | corrected member |
|---|---|---|---|---|---|---|
| src/lib.rs:140-142 | the single-token branch of `parse_float` looks up the first character of the whole text, not of its only token | the quantity " ½" (a space, then a glyph) is rejected with "Not a fraction" | look up the first character of the token, as the mixed-number branch does, so " ½" parses to 0.5 | not executed | Quantity.LeadingSpaceGlyphRejected | Quantity.TrimmedGlyphAccepted |
