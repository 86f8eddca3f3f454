/**
 * `api::make_shopping_list`: consolidation of a flat component list so that
 * each ingredient appears once, in first-seen order, and the rendering of the
 * consolidated components into the lines of the shopping list.
 *
 * The number formatting of the source (an integer when the fractional part is
 * zero, two decimals otherwise) is not modelled; it is the parameter `fmt`.
 */
module ShoppingList {
  import opened Wrappers
  import opened Components

  /** The ingredient ids of a component list, in order. */
  function Ids(cs: seq<Component>): (r: seq<int>)
    ensures |r| == |cs|
  {
    seq(|cs|, i requires 0 <= i < |cs| => cs[i].ingredient.id)
  }

  predicate NoDuplicates(xs: seq<int>) {
    forall i, j :: 0 <= i < j < |xs| ==> xs[i] != xs[j]
  }

  /** Position of the first occurrence of `x` in `xs`, or `|xs|` if absent. */
  function FirstIndex(xs: seq<int>, x: int): (i: nat)
    ensures i <= |xs|
    ensures i < |xs| <==> x in xs
    ensures i < |xs| ==> xs[i] == x
    ensures forall k :: 0 <= k < i ==> xs[k] != x
  {
    if xs == [] then 0
    else if xs[0] == x then 0
    else 1 + FirstIndex(xs[1..], x)
  }

  /** Position of the first component of ingredient `id`, or `|acc|`. */
  function IndexOfId(acc: seq<Component>, id: int): (i: nat)
    ensures i == FirstIndex(Ids(acc), id)
  {
    if acc == [] then 0
    else if acc[0].ingredient.id == id then 0
    else
      assert Ids(acc[1..]) == Ids(acc)[1..];
      1 + IndexOfId(acc[1..], id)
  }

  /** One step of the consolidation loop: merge `c` into the entry of its
      ingredient, or append it. */
  function Absorb(acc: seq<Component>, c: Component): seq<Component> {
    var i := IndexOfId(acc, c.ingredient.id);
    if i < |acc| then acc[i := Merge(acc[i], c)] else acc + [c]
  }

  /** The consolidated list that the loop builds from `cs`. */
  function Consolidate(cs: seq<Component>): seq<Component> {
    if cs == [] then []
    else Absorb(Consolidate(cs[..|cs| - 1]), cs[|cs| - 1])
  }

  /** The components of `cs` that have ingredient `x`, in order. */
  function Group(cs: seq<Component>, x: int): seq<Component> {
    if cs == [] then []
    else
      var last := cs[|cs| - 1];
      Group(cs[..|cs| - 1], x) + (if last.ingredient.id == x then [last] else [])
  }

  /** The left-to-right sum of a non-empty list of components. */
  function MergeAll(g: seq<Component>): Component
    requires g != []
  {
    if |g| == 1 then g[0] else Merge(MergeAll(g[..|g| - 1]), g[|g| - 1])
  }

  lemma IdsSnoc(cs: seq<Component>, c: Component)
    ensures Ids(cs + [c]) == Ids(cs) + [c.ingredient.id]
  {
  }

  /** How one step changes the id list. */
  lemma AbsorbIds(acc: seq<Component>, c: Component)
    ensures IndexOfId(acc, c.ingredient.id) < |acc| ==> Ids(Absorb(acc, c)) == Ids(acc)
    ensures IndexOfId(acc, c.ingredient.id) == |acc| ==> Ids(Absorb(acc, c)) == Ids(acc) + [c.ingredient.id]
  {
    IdsSnoc(acc, c);
  }

  lemma FirstIndexSnoc(xs: seq<int>, y: int, x: int)
    requires x in xs
    ensures FirstIndex(xs + [y], x) == FirstIndex(xs, x)
  {
    var p := FirstIndex(xs, x);
    var q := FirstIndex(xs + [y], x);
    assert (xs + [y])[p] == x;
    if q < p {
      assert (xs + [y])[q] == xs[q];
    }
  }

  /** The consolidated list holds one component per distinct ingredient of
      the input. */
  lemma {:induction false} ConsolidateIds(cs: seq<Component>)
    ensures NoDuplicates(Ids(Consolidate(cs)))
    ensures forall x :: x in Ids(Consolidate(cs)) <==> x in Ids(cs)
  {
    if cs != [] {
      var init, c := cs[..|cs| - 1], cs[|cs| - 1];
      assert cs == init + [c];
      ConsolidateIds(init);
      var acc := Consolidate(init);
      var x := c.ingredient.id;
      AbsorbIds(acc, c);
      IdsSnoc(init, c);
      if IndexOfId(acc, x) == |acc| {
        assert x !in Ids(acc);
      }
    }
  }

  /** The consolidated list follows the order of first occurrence. */
  lemma {:induction false} ConsolidateOrder(cs: seq<Component>)
    ensures forall i, j :: 0 <= i < j < |Consolidate(cs)| ==>
              FirstIndex(Ids(cs), Consolidate(cs)[i].ingredient.id)
              < FirstIndex(Ids(cs), Consolidate(cs)[j].ingredient.id)
  {
    if cs != [] {
      var init, c := cs[..|cs| - 1], cs[|cs| - 1];
      assert cs == init + [c];
      ConsolidateIds(init);
      ConsolidateOrder(init);
      var acc := Consolidate(init);
      var out := Consolidate(cs);
      var x := c.ingredient.id;
      AbsorbIds(acc, c);
      IdsSnoc(init, c);
      assert Ids(cs) == Ids(init) + [x];
      forall y | y in Ids(init) ensures FirstIndex(Ids(cs), y) == FirstIndex(Ids(init), y) {
        FirstIndexSnoc(Ids(init), x, y);
      }
      if IndexOfId(acc, x) < |acc| {
        assert Ids(out) == Ids(acc);
        forall i | 0 <= i < |out| ensures out[i].ingredient.id == acc[i].ingredient.id {
          assert Ids(out)[i] == Ids(acc)[i];
        }
        forall i, j | 0 <= i < j < |out|
          ensures FirstIndex(Ids(cs), out[i].ingredient.id) < FirstIndex(Ids(cs), out[j].ingredient.id)
        {
          assert Ids(acc)[i] in Ids(init) && Ids(acc)[j] in Ids(init);
        }
      } else {
        assert x !in Ids(acc);
        assert out == acc + [c];
        assert FirstIndex(Ids(cs), x) == |Ids(init)|;
        forall i, j | 0 <= i < j < |out|
          ensures FirstIndex(Ids(cs), out[i].ingredient.id) < FirstIndex(Ids(cs), out[j].ingredient.id)
        {
          assert Ids(acc)[i] in Ids(init);
          if j < |acc| {
            assert Ids(acc)[j] in Ids(init);
          }
        }
      }
    }
  }

  lemma {:induction false} GroupAbsent(cs: seq<Component>, x: int)
    requires x !in Ids(cs)
    ensures Group(cs, x) == []
  {
    if cs != [] {
      var init := cs[..|cs| - 1];
      IdsSnoc(init, cs[|cs| - 1]);
      assert cs == init + [cs[|cs| - 1]];
      GroupAbsent(init, x);
    }
  }

  lemma {:induction false} GroupPresent(cs: seq<Component>, x: int)
    requires x in Ids(cs)
    ensures Group(cs, x) != []
  {
    var init, c := cs[..|cs| - 1], cs[|cs| - 1];
    IdsSnoc(init, c);
    assert cs == init + [c];
    if c.ingredient.id != x {
      GroupPresent(init, x);
    }
  }

  lemma ConsolidateSnoc(init: seq<Component>, c: Component)
    ensures Consolidate(init + [c]) == Absorb(Consolidate(init), c)
  {
    assert (init + [c])[..|init|] == init;
  }

  lemma GroupSnoc(init: seq<Component>, c: Component, y: int)
    ensures Group(init + [c], y) == Group(init, y) + (if c.ingredient.id == y then [c] else [])
  {
    assert (init + [c])[..|init|] == init;
  }

  lemma MergeAllSnoc(g: seq<Component>, c: Component)
    requires g != []
    ensures MergeAll(g + [c]) == Merge(MergeAll(g), c)
  {
    assert (g + [c])[..|g|] == g;
  }

  /** One step of the induction of `ConsolidateContents`, for one position. */
  lemma AbsorbContents(init: seq<Component>, acc: seq<Component>, c: Component, k: nat)
    requires NoDuplicates(Ids(acc))
    requires forall x :: x in Ids(acc) <==> x in Ids(init)
    requires forall j :: 0 <= j < |acc| ==>
               Group(init, acc[j].ingredient.id) != [] &&
               acc[j] == MergeAll(Group(init, acc[j].ingredient.id))
    requires k < |Absorb(acc, c)|
    ensures var out := Absorb(acc, c);
            Group(init + [c], out[k].ingredient.id) != [] &&
            out[k] == MergeAll(Group(init + [c], out[k].ingredient.id))
  {
    var out := Absorb(acc, c);
    var x := c.ingredient.id;
    var i := IndexOfId(acc, x);
    AbsorbIds(acc, c);
    if i < |acc| && k == i {
      assert acc[i].ingredient.id == x;
      GroupSnoc(init, c, x);
      MergeAllSnoc(Group(init, x), c);
    } else if k < |acc| {
      var y := acc[k].ingredient.id;
      assert out[k] == acc[k];
      assert Ids(acc)[k] == y;
      assert i < |acc| ==> Ids(acc)[i] == x;
      assert y != x;
      GroupSnoc(init, c, y);
      assert Group(init, y) + [] == Group(init, y);
      assert acc[k] == MergeAll(Group(init, y));
    } else {
      assert x !in Ids(init);
      GroupAbsent(init, x);
      GroupSnoc(init, c, x);
    }
  }

  /** Each consolidated component is the left-to-right sum of every input
      component of its ingredient. */
  lemma {:induction false} ConsolidateContents(cs: seq<Component>)
    ensures forall k :: 0 <= k < |Consolidate(cs)| ==>
              Group(cs, Consolidate(cs)[k].ingredient.id) != [] &&
              Consolidate(cs)[k] == MergeAll(Group(cs, Consolidate(cs)[k].ingredient.id))
  {
    if cs != [] {
      var init, c := cs[..|cs| - 1], cs[|cs| - 1];
      assert cs == init + [c];
      ConsolidateContents(init);
      ConsolidateIds(init);
      ConsolidateSnoc(init, c);
      forall k | 0 <= k < |Consolidate(cs)|
        ensures Group(cs, Consolidate(cs)[k].ingredient.id) != []
        ensures Consolidate(cs)[k] == MergeAll(Group(cs, Consolidate(cs)[k].ingredient.id))
      {
        AbsorbContents(init, Consolidate(init), c, k);
      }
    }
  }

  /** "To taste": no measurement, or every quantity is zero. */
  predicate ToTaste(c: Component) {
    |c.measurements| == 0 || forall m :: m in c.measurements ==> m.quantity == 0.0
  }

  /** The shopping-list line of one consolidated component. */
  function Line(c: Component, fmt: real -> string): (r: string)
    ensures r == c.ingredient.displaySingular <==> ToTaste(c)
    ensures c.ingredient.displaySingular <= r
  {
    var name := c.ingredient.displaySingular;
    if ToTaste(c) then name
    else
      var m := c.measurements[0];
      var r := name + ": " + fmt(m.quantity) + " " + m.unit.abbreviation;
      assert |r| > |name|;
      r
  }

  /** Only the first measurement is shown, whatever follows it. */
  lemma LineShowsFirstMeasurementOnly(c: Component, d: Component, fmt: real -> string)
    requires !ToTaste(c) && !ToTaste(d)
    requires c.ingredient.displaySingular == d.ingredient.displaySingular
    requires c.measurements[0] == d.measurements[0]
    ensures Line(c, fmt) == Line(d, fmt)
  {
  }

  function Lines(cs: seq<Component>, fmt: real -> string): (r: seq<string>)
    ensures |r| == |cs|
  {
    seq(|cs|, i requires 0 <= i < |cs| => Line(cs[i], fmt))
  }

  /** `join("\n")`. */
  function Join(lines: seq<string>): string {
    if lines == [] then ""
    else if |lines| == 1 then lines[0]
    else lines[0] + "\n" + Join(lines[1..])
  }

  /** `str::split('\n')`, the inverse of `Join` on lines without newlines. */
  function SplitLines(s: string): (r: seq<string>)
    ensures |r| >= 1
  {
    if s == [] then [""]
    else
      var rest := SplitLines(s[1..]);
      if s[0] == '\n' then [""] + rest
      else [[s[0]] + rest[0]] + rest[1..]
  }

  lemma {:induction false} SplitLinesOfLine(l: string, tail: string)
    requires '\n' !in l
    ensures SplitLines(l + tail) == [l + SplitLines(tail)[0]] + SplitLines(tail)[1..]
  {
    if l != [] {
      var t := SplitLines(tail);
      assert (l + tail)[0] == l[0];
      assert (l + tail)[1..] == l[1..] + tail;
      SplitLinesOfLine(l[1..], tail);
      assert [l[0]] + (l[1..] + t[0]) == l + t[0];
    } else {
      var t := SplitLines(tail);
      assert l + tail == tail;
      assert l + t[0] == t[0];
      assert [t[0]] + t[1..] == t;
    }
  }

  /** Splitting the joined list gives the lines back. */
  lemma {:induction false} JoinSplitRoundTrip(lines: seq<string>)
    requires lines != []
    requires forall k :: 0 <= k < |lines| ==> '\n' !in lines[k]
    ensures SplitLines(Join(lines)) == lines
  {
    if |lines| == 1 {
      SplitLinesOfLine(lines[0], "");
      assert lines[0] + "" == lines[0];
    } else {
      var tail := Join(lines[1..]);
      JoinSplitRoundTrip(lines[1..]);
      assert lines[0] + "\n" + tail == lines[0] + ("\n" + tail);
      SplitLinesOfLine(lines[0], "\n" + tail);
      assert ("\n" + tail)[0] == '\n';
      assert ("\n" + tail)[1..] == tail;
      assert SplitLines("\n" + tail) == [""] + lines[1..];
      assert lines[0] + "" == lines[0];
      assert [lines[0]] + lines[1..] == lines;
    }
  }

  /** The shopping list has exactly one line per distinct ingredient of the
      input, in first-seen order, each the line of the sum of all components
      of its ingredient and each naming its ingredient. */
  lemma OneLinePerIngredient(cs: seq<Component>, fmt: real -> string)
    ensures |Lines(Consolidate(cs), fmt)| == |Consolidate(cs)|
    ensures NoDuplicates(Ids(Consolidate(cs)))
    ensures forall x :: x in Ids(Consolidate(cs)) <==> x in Ids(cs)
    ensures forall i, j :: 0 <= i < j < |Consolidate(cs)| ==>
              FirstIndex(Ids(cs), Consolidate(cs)[i].ingredient.id)
              < FirstIndex(Ids(cs), Consolidate(cs)[j].ingredient.id)
    ensures forall k :: 0 <= k < |Consolidate(cs)| ==>
              Group(cs, Consolidate(cs)[k].ingredient.id) != [] &&
              Lines(Consolidate(cs), fmt)[k] == Line(MergeAll(Group(cs, Consolidate(cs)[k].ingredient.id)), fmt)
    ensures forall k :: 0 <= k < |Consolidate(cs)| ==>
              Consolidate(cs)[k].ingredient.displaySingular <= Lines(Consolidate(cs), fmt)[k]
  {
    ConsolidateIds(cs);
    ConsolidateOrder(cs);
    ConsolidateContents(cs);
  }

  /** Two single measurements of one ingredient in one unit are listed as
      their sum. */
  lemma TwoCupsOfOneIngredient(a: Component, b: Component, fmt: real -> string)
    requires a.ingredient.id == b.ingredient.id
    requires |a.measurements| == 1 && |b.measurements| == 1
    requires SameUnit(a.measurements[0], b.measurements[0])
    requires a.measurements[0].quantity == 1.0 && b.measurements[0].quantity == 1.0
    ensures Lines(Consolidate([a, b]), fmt) ==
            [a.ingredient.displaySingular + ": " + fmt(2.0) + " " + a.measurements[0].unit.abbreviation]
  {
    assert [a, b][..1] == [a];
    assert [a][..0] == [];
    assert Consolidate([a]) == [a];
    assert IndexOfId([a], b.ingredient.id) == 0;
    SingleCommonUnit(a, b);
    var m := Merge(a, b);
    assert Consolidate([a, b]) == [m];
    assert m.measurements[0] in m.measurements;
    assert !ToTaste(m);
  }

  lemma ConsolidatePrefixStep(cs: seq<Component>, n: nat)
    requires n < |cs|
    ensures Consolidate(cs[..n + 1]) == Absorb(Consolidate(cs[..n]), cs[n])
  {
    assert cs[..n + 1] == cs[..n] + [cs[n]];
    ConsolidateSnoc(cs[..n], cs[n]);
  }

  /** The merging branch of the loop: the first entry with the ingredient
      absorbs the component. */
  lemma AbsorbAt(acc: seq<Component>, c: Component, i: nat)
    requires i < |acc| && acc[i].ingredient.id == c.ingredient.id
    requires forall k :: 0 <= k < i ==> acc[k].ingredient.id != c.ingredient.id
    ensures Absorb(acc, c) == acc[i := Merge(acc[i], c)]
    ensures Ids(Absorb(acc, c)) == Ids(acc)
  {
    assert Ids(acc)[i] == c.ingredient.id;
    AbsorbIds(acc, c);
  }

  /** The appending branch of the loop. */
  lemma AbsorbNew(acc: seq<Component>, c: Component)
    requires c.ingredient.id !in Ids(acc)
    ensures Absorb(acc, c) == acc + [c]
    ensures Ids(Absorb(acc, c)) == Ids(acc) + [c.ingredient.id]
  {
    AbsorbIds(acc, c);
  }

  lemma LinesSnoc(cs: seq<Component>, c: Component, fmt: real -> string)
    ensures Lines(cs + [c], fmt) == Lines(cs, fmt) + [Line(c, fmt)]
  {
  }

  /** The scan of `combined_components` for the first entry of an ingredient
      already listed in `ingredient_ids`. */
  method FirstEntryOf(combined: seq<Component>, id: int) returns (i: nat)
    requires id in Ids(combined)
    ensures i < |combined| && combined[i].ingredient.id == id
    ensures forall k :: 0 <= k < i ==> combined[k].ingredient.id != id
  {
    i := 0;
    while i < |combined| && combined[i].ingredient.id != id
      invariant 0 <= i <= |combined|
      invariant forall k :: 0 <= k < i ==> combined[k].ingredient.id != id
    {
      i := i + 1;
    }
    assert i < |combined| by {
      var k :| 0 <= k < |Ids(combined)| && Ids(combined)[k] == id;
      assert combined[k].ingredient.id == id;
    }
  }

  /** One turn of the consolidation loop of `api::make_shopping_list`: a
      component of an ingredient already present is added to that entry in
      place, any other is appended together with its ingredient id. The `?`
      on the addition never propagates: `add` is only reached for two
      components of the same ingredient. */
  method AbsorbComponent(combined: seq<Component>, ingredientIds: seq<int>, component: Component)
    returns (combined': seq<Component>, ingredientIds': seq<int>)
    requires ingredientIds == Ids(combined)
    ensures combined' == Absorb(combined, component)
    ensures ingredientIds' == Ids(combined')
  {
    var id := component.ingredient.id;
    if id in ingredientIds {
      var i := FirstEntryOf(combined, id);
      AbsorbAt(combined, component, i);
      var sum := Add(combined[i], component);
      combined' := combined[i := sum.value];
      ingredientIds' := ingredientIds;
    } else {
      AbsorbNew(combined, component);
      ingredientIds' := ingredientIds + [id];
      combined' := combined + [component];
    }
  }

  /** The consolidation loop of `api::make_shopping_list` (its first half):
      `combined_components` and `ingredient_ids` grow together. */
  method CombineComponents(components: seq<Component>) returns (combined: seq<Component>)
    ensures combined == Consolidate(components)
  {
    combined := [];
    var ingredientIds: seq<int> := [];
    var n := 0;
    while n < |components|
      invariant 0 <= n <= |components|
      invariant combined == Consolidate(components[..n])
      invariant ingredientIds == Ids(combined)
    {
      ConsolidatePrefixStep(components, n);
      combined, ingredientIds := AbsorbComponent(combined, ingredientIds, components[n]);
      n := n + 1;
    }
    assert components[..n] == components;
  }

  /** `api::make_shopping_list`: one line per consolidated component, joined
      by newlines. It never returns an error. */
  method MakeShoppingList(components: seq<Component>, fmt: real -> string)
    returns (r: Result<string, IncompatibleComponentError>)
    ensures r == Ok(Join(Lines(Consolidate(components), fmt)))
  {
    var combined := CombineComponents(components);
    var shoppingList := RenderLines(combined, fmt);
    r := Ok(Join(shoppingList));
  }

  /** The rendering loop of `make_shopping_list`: one line per consolidated
      component. */
  method RenderLines(combined: seq<Component>, fmt: real -> string) returns (shoppingList: seq<string>)
    ensures shoppingList == Lines(combined, fmt)
  {
    shoppingList := [];
    var k := 0;
    while k < |combined|
      invariant 0 <= k <= |combined|
      invariant shoppingList == Lines(combined[..k], fmt)
    {
      var c := combined[k];
      var name := c.ingredient.displaySingular;
      var line;
      if |c.measurements| == 0 || forall m :: m in c.measurements ==> m.quantity == 0.0 {
        line := name;
      } else {
        var quantity := fmt(c.measurements[0].quantity);
        line := name + ": " + quantity + " " + c.measurements[0].unit.abbreviation;
      }
      assert line == Line(c, fmt);
      assert combined[..k + 1] == combined[..k] + [c];
      LinesSnoc(combined[..k], c, fmt);
      shoppingList := shoppingList + [line];
      k := k + 1;
    }
    assert combined[..k] == combined;
  }
}
