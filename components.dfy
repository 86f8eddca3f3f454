/**
 * The recipe entities of the catalog (`api::models`), the addition of two
 * components of the same ingredient (`Component::add`) and the flattening of
 * recipes into their components (`api::get_components`).
 */
module Components {
  import opened Wrappers

  /** A unit of measure; `name` decides compatibility, `abbreviation` is only
      displayed. */
  datatype Unit = Unit(name: string, abbreviation: string)

  datatype Measurement = Measurement(id: int, quantity: real, unit: Unit)

  datatype Ingredient = Ingredient(id: int, displaySingular: string)

  /** An ingredient with the measurements a recipe states it in. */
  datatype Component = Component(ingredient: Ingredient, measurements: seq<Measurement>)

  datatype Section = Section(components: seq<Component>)

  datatype Tag = Tag(id: int)

  datatype Recipe = Recipe(name: string, id: int, slug: string, sections: seq<Section>, tags: seq<Tag>)

  /** Raised when two components of different ingredients are added. */
  datatype IncompatibleComponentError = IncompatibleComponentError

  predicate SameUnit(m: Measurement, n: Measurement) {
    m.unit.name == n.unit.name
  }

  /** One merged measurement: the sum of the quantities, with the id and unit
      of the left-hand measurement. */
  function Combine(m: Measurement, n: Measurement): Measurement {
    Measurement(m.id, m.quantity + n.quantity, m.unit)
  }

  /** `m` combined with each measurement of `rs` that has its unit, in the
      order of `rs`. */
  function MatchesFor(m: Measurement, rs: seq<Measurement>): seq<Measurement> {
    if rs == [] then []
    else
      var last := rs[|rs| - 1];
      MatchesFor(m, rs[..|rs| - 1]) + (if SameUnit(m, last) then [Combine(m, last)] else [])
  }

  /** The measurements of a sum: one per (left, right) pair with the same unit
      name, left-major. */
  function Pairs(ms: seq<Measurement>, rs: seq<Measurement>): seq<Measurement> {
    if ms == [] then []
    else Pairs(ms[..|ms| - 1], rs) + MatchesFor(ms[|ms| - 1], rs)
  }

  /** The successful result of adding two components of one ingredient. */
  function Merge(a: Component, b: Component): Component {
    Component(a.ingredient, Pairs(a.measurements, b.measurements))
  }

  /** `impl Add for Component`. */
  method Add(lhs: Component, rhs: Component) returns (r: Result<Component, IncompatibleComponentError>)
    ensures r.Err? <==> lhs.ingredient.id != rhs.ingredient.id
    ensures r.Ok? ==> r.value == Merge(lhs, rhs)
  {
    if lhs.ingredient.id != rhs.ingredient.id {
      return Err(IncompatibleComponentError);
    }
    var ms, rs := lhs.measurements, rhs.measurements;
    var measurements: seq<Measurement> := [];
    var i := 0;
    while i < |ms|
      invariant 0 <= i <= |ms|
      invariant measurements == Pairs(ms[..i], rs)
    {
      measurements := AppendMatches(measurements, ms[i], rs);
      assert ms[..i + 1][..i] == ms[..i];
      i := i + 1;
    }
    assert ms[..|ms|] == ms;
    r := Ok(Component(lhs.ingredient, measurements));
  }

  /** The inner loop of `Component::add`, over the right-hand measurements
      for one left-hand measurement `m`. */
  method AppendMatches(acc: seq<Measurement>, m: Measurement, rs: seq<Measurement>)
    returns (ret: seq<Measurement>)
    ensures ret == acc + MatchesFor(m, rs)
  {
    ret := acc;
    var j := 0;
    while j < |rs|
      invariant 0 <= j <= |rs|
      invariant ret == acc + MatchesFor(m, rs[..j])
    {
      var n := rs[j];
      assert rs[..j + 1][..j] == rs[..j];
      if m.unit.name != n.unit.name {
        j := j + 1;
        continue;
      }
      ret := ret + [Measurement(m.id, m.quantity + n.quantity, m.unit)];
      j := j + 1;
    }
    assert rs[..|rs|] == rs;
  }

  lemma {:induction false} MatchesForSound(m: Measurement, rs: seq<Measurement>, k: nat)
    requires k < |MatchesFor(m, rs)|
    ensures exists j :: 0 <= j < |rs| && SameUnit(m, rs[j]) && MatchesFor(m, rs)[k] == Combine(m, rs[j])
  {
    var init := rs[..|rs| - 1];
    if k < |MatchesFor(m, init)| {
      MatchesForSound(m, init, k);
      var j :| 0 <= j < |init| && SameUnit(m, init[j]) && MatchesFor(m, init)[k] == Combine(m, init[j]);
      assert rs[j] == init[j];
    } else {
      assert SameUnit(m, rs[|rs| - 1]);
    }
  }

  lemma {:induction false} MatchesForComplete(m: Measurement, rs: seq<Measurement>, j: nat)
    requires j < |rs| && SameUnit(m, rs[j])
    ensures Combine(m, rs[j]) in MatchesFor(m, rs)
  {
    var init := rs[..|rs| - 1];
    if j < |init| {
      MatchesForComplete(m, init, j);
      assert rs[j] == init[j];
    }
  }

  /** Every measurement of a sum comes from a left and a right measurement
      that share a unit name: it carries their summed quantity and the left
      one's id and unit. */
  lemma {:induction false} PairsSound(ms: seq<Measurement>, rs: seq<Measurement>, k: nat)
    requires k < |Pairs(ms, rs)|
    ensures exists i, j :: 0 <= i < |ms| && 0 <= j < |rs| && SameUnit(ms[i], rs[j])
                           && Pairs(ms, rs)[k] == Combine(ms[i], rs[j])
  {
    var init := ms[..|ms| - 1];
    var last := ms[|ms| - 1];
    if k < |Pairs(init, rs)| {
      PairsSound(init, rs, k);
      var i, j :| 0 <= i < |init| && 0 <= j < |rs| && SameUnit(init[i], rs[j])
                  && Pairs(init, rs)[k] == Combine(init[i], rs[j]);
      assert ms[i] == init[i];
    } else {
      MatchesForSound(last, rs, k - |Pairs(init, rs)|);
      var j :| 0 <= j < |rs| && SameUnit(last, rs[j])
               && MatchesFor(last, rs)[k - |Pairs(init, rs)|] == Combine(last, rs[j]);
      assert Pairs(ms, rs)[k] == Combine(ms[|ms| - 1], rs[j]);
    }
  }

  /** Every (left, right) pair with the same unit name contributes its sum. */
  lemma {:induction false} PairsComplete(ms: seq<Measurement>, rs: seq<Measurement>, i: nat, j: nat)
    requires i < |ms| && j < |rs| && SameUnit(ms[i], rs[j])
    ensures Combine(ms[i], rs[j]) in Pairs(ms, rs)
  {
    var init := ms[..|ms| - 1];
    if i < |init| {
      PairsComplete(init, rs, i, j);
      assert ms[i] == init[i];
    } else {
      MatchesForComplete(ms[i], rs, j);
    }
  }

  /** A measurement of the left operand whose unit the right operand does not
      have leaves no trace in the sum's units. */
  lemma UnmatchedUnitsDropped(ms: seq<Measurement>, rs: seq<Measurement>, name: string)
    requires forall j :: 0 <= j < |rs| ==> rs[j].unit.name != name
    ensures forall k :: 0 <= k < |Pairs(ms, rs)| ==> Pairs(ms, rs)[k].unit.name != name
  {
    forall k | 0 <= k < |Pairs(ms, rs)| ensures Pairs(ms, rs)[k].unit.name != name {
      PairsSound(ms, rs, k);
    }
  }

  /** Two single measurements in the same unit add up to one measurement. */
  lemma SingleCommonUnit(a: Component, b: Component)
    requires |a.measurements| == 1 && |b.measurements| == 1
    requires SameUnit(a.measurements[0], b.measurements[0])
    ensures Merge(a, b).measurements == [Combine(a.measurements[0], b.measurements[0])]
    ensures Merge(a, b).measurements[0].quantity
            == a.measurements[0].quantity + b.measurements[0].quantity
  {
    var ms, rs := a.measurements, b.measurements;
    assert rs[..0] == [] && ms[..0] == [];
    assert MatchesFor(ms[0], rs) == MatchesFor(ms[0], []) + [Combine(ms[0], rs[0])];
    assert Pairs(ms, rs) == Pairs([], rs) + MatchesFor(ms[0], rs);
  }

  /** The components of a recipe's sections, section by section. */
  function SectionComponents(ss: seq<Section>): seq<Component> {
    if ss == [] then []
    else SectionComponents(ss[..|ss| - 1]) + ss[|ss| - 1].components
  }

  /** The components of a list of recipes, recipe by recipe. */
  function RecipeComponents(rs: seq<Recipe>): seq<Component> {
    if rs == [] then []
    else RecipeComponents(rs[..|rs| - 1]) + SectionComponents(rs[|rs| - 1].sections)
  }

  /** `api::get_components`. */
  method GetComponents(recipes: seq<Recipe>) returns (ret: seq<Component>)
    ensures ret == RecipeComponents(recipes)
  {
    ret := [];
    var i := 0;
    while i < |recipes|
      invariant 0 <= i <= |recipes|
      invariant ret == RecipeComponents(recipes[..i])
    {
      ret := AppendSections(ret, recipes[i].sections);
      assert recipes[..i + 1][..i] == recipes[..i];
      i := i + 1;
    }
    assert recipes[..i] == recipes;
  }

  /** The two inner loops of `api::get_components`, over the sections of one
      recipe and the components of each section. */
  method AppendSections(acc: seq<Component>, sections: seq<Section>) returns (ret: seq<Component>)
    ensures ret == acc + SectionComponents(sections)
  {
    ret := acc;
    var k := 0;
    while k < |sections|
      invariant 0 <= k <= |sections|
      invariant ret == acc + SectionComponents(sections[..k])
    {
      var components := sections[k].components;
      ghost var before := ret;
      var c := 0;
      while c < |components|
        invariant 0 <= c <= |components|
        invariant ret == before + components[..c]
      {
        ret := ret + [components[c]];
        assert components[..c + 1] == components[..c] + [components[c]];
        c := c + 1;
      }
      assert components[..c] == components;
      assert sections[..k + 1][..k] == sections[..k];
      k := k + 1;
    }
    assert sections[..k] == sections;
  }

  lemma {:induction false} SectionComponentsMembership(ss: seq<Section>, c: Component)
    ensures c in SectionComponents(ss) <==> exists k :: 0 <= k < |ss| && c in ss[k].components
  {
    if ss != [] {
      var init := ss[..|ss| - 1];
      SectionComponentsMembership(init, c);
      if c in SectionComponents(ss) && c !in ss[|ss| - 1].components {
        var k :| 0 <= k < |init| && c in init[k].components;
        assert ss[k] == init[k];
      }
      if exists k :: 0 <= k < |ss| && c in ss[k].components {
        var k :| 0 <= k < |ss| && c in ss[k].components;
        if k < |init| { assert init[k] == ss[k]; }
      }
    }
  }

  /** Every component gathered comes from some recipe of the list. */
  lemma {:induction false} RecipeComponentsSource(rs: seq<Recipe>, c: Component) returns (i: nat)
    requires c in RecipeComponents(rs)
    ensures i < |rs| && c in SectionComponents(rs[i].sections)
  {
    var init := rs[..|rs| - 1];
    if c in RecipeComponents(init) {
      i := RecipeComponentsSource(init, c);
      assert rs[i] == init[i];
    } else {
      i := |rs| - 1;
    }
  }

  /** Every component of every recipe of the list is gathered. */
  lemma {:induction false} RecipeComponentsGathered(rs: seq<Recipe>, i: nat, c: Component)
    requires i < |rs| && c in SectionComponents(rs[i].sections)
    ensures c in RecipeComponents(rs)
  {
    var init := rs[..|rs| - 1];
    if i < |rs| - 1 {
      assert init[i] == rs[i];
      RecipeComponentsGathered(init, i, c);
    }
  }

  lemma RecipeComponentsByRecipe(rs: seq<Recipe>, c: Component)
    ensures c in RecipeComponents(rs) <==> exists i :: 0 <= i < |rs| && c in SectionComponents(rs[i].sections)
  {
    if c in RecipeComponents(rs) {
      var i := RecipeComponentsSource(rs, c);
    }
    if exists i :: 0 <= i < |rs| && c in SectionComponents(rs[i].sections) {
      var i :| 0 <= i < |rs| && c in SectionComponents(rs[i].sections);
      RecipeComponentsGathered(rs, i, c);
    }
  }

  /** A component is gathered exactly when some section of some recipe
      states it. */
  lemma RecipeComponentsMembership(rs: seq<Recipe>, c: Component)
    ensures c in RecipeComponents(rs) <==>
            exists i, k :: 0 <= i < |rs| && 0 <= k < |rs[i].sections| && c in rs[i].sections[k].components
  {
    RecipeComponentsByRecipe(rs, c);
    forall i | 0 <= i < |rs|
      ensures c in SectionComponents(rs[i].sections) <==>
              exists k :: 0 <= k < |rs[i].sections| && c in rs[i].sections[k].components
    {
      SectionComponentsMembership(rs[i].sections, c);
    }
  }
}
