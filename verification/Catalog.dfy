/** Creating products and combo recipes; combos stay acyclic. */
module Catalog {
  import opened Results

  datatype ProductType = Standard | Combo | Service | Digital

  datatype Component = Component(product: int, quantity: int)

  datatype RecipeSpec = RecipeSpec(owner: int, components: seq<Component>)

  datatype RecipeError = OwnerNotPositive | NoComponents | SelfComponent | DuplicateComponent

  function Ids(components: seq<Component>): set<int> {
    set c | c in components :: c.product
  }

  /** No component is the owner and none occurs twice. */
  ghost predicate Clean(owner: int, components: seq<Component>) {
    && (forall c :: c in components ==> c.product != owner)
    && (forall i, j :: 0 <= i < j < |components| ==> components[i].product != components[j].product)
  }

  /** ComboRecipeSpec.__post_init__: one pass with a growing set; the first offending component decides the error. */
  method NewRecipe(owner: int, components: seq<Component>) returns (r: Result<RecipeSpec, RecipeError>)
    ensures r.Ok? <==> owner > 0 && components != [] && Clean(owner, components)
    ensures r.Ok? ==> r.value == RecipeSpec(owner, components)
    ensures r == Err(OwnerNotPositive) <==> owner <= 0
    ensures r == Err(NoComponents) <==> owner > 0 && components == []
    ensures r == Err(SelfComponent) <==>
      owner > 0 && exists i :: 0 <= i < |components| && components[i].product == owner && Clean(owner, components[..i])
  {
    if owner <= 0 {
      return Err(OwnerNotPositive);
    }
    if |components| == 0 {
      return Err(NoComponents);
    }
    var seen: set<int> := {};
    for i := 0 to |components|
      invariant seen == Ids(components[..i]) && Clean(owner, components[..i])
    {
      var c := components[i];
      if c.product == owner {
        return Err(SelfComponent);
      }
      if c.product in seen {
        var j :| 0 <= j < i && components[j].product == c.product;
        OnlyFirst(owner, components, i, j);
        return Err(DuplicateComponent);
      }
      CleanSnoc(owner, components, i);
      seen := seen + {c.product};
    }
    assert components[..|components|] == components;
    r := Ok(RecipeSpec(owner, components));
  }

  lemma CleanSnoc(owner: int, components: seq<Component>, i: nat)
    requires i < |components| && Clean(owner, components[..i])
    requires components[i].product != owner && components[i].product !in Ids(components[..i])
    ensures Clean(owner, components[..i + 1])
            && Ids(components[..i + 1]) == Ids(components[..i]) + {components[i].product}
  {
    assert components[..i + 1] == components[..i] + [components[i]];
    forall j | 0 <= j < i
      ensures components[j].product != components[i].product
    {
      assert components[..i][j] in components[..i];
    }
  }

  /** With a repeat at i and everything before it clean, no later prefix is clean and no earlier component is
      the owner. */
  lemma OnlyFirst(owner: int, components: seq<Component>, i: nat, j: nat)
    requires j < i < |components| && components[j].product == components[i].product
    requires Clean(owner, components[..i]) && components[i].product != owner
    ensures !Clean(owner, components)
    ensures !exists k :: 0 <= k < |components| && components[k].product == owner && Clean(owner, components[..k])
  {
    forall k | 0 <= k < i
      ensures components[k].product != owner
    {
      assert components[..i][k] in components[..i];
    }
    forall k | i < k <= |components|
      ensures !Clean(owner, components[..k])
    {
      assert components[..k][j].product == components[..k][i].product;
    }
    assert components[..|components|] == components;
  }

  // ----- creating products -------------------------------------------------------

  datatype Product = Product(code: string, kind: ProductType)

  /** The tables a product refers to; a brand and a tax are optional. */
  datatype Lookups = Lookups(categories: set<int>, brands: set<int>, units: set<int>, taxes: set<int>)

  datatype Store = Store(lookups: Lookups, products: map<int, Product>, recipes: map<int, seq<Component>>)

  datatype Command = Command(code: string, kind: ProductType, category: int, brand: Option<int>, unit: int,
                             tax: Option<int>, recipe: Option<RecipeSpec>)

  predicate RefersToRows(l: Lookups, cmd: Command) {
    && cmd.category in l.categories && cmd.unit in l.units
    && (cmd.brand.Some? ==> cmd.brand.value in l.brands)
    && (cmd.tax.Some? ==> cmd.tax.value in l.taxes)
  }

  datatype CreateError = RecipeRequired | RecipeNotAllowed | SelfReference | IntegrityError

  /** Saving the components one by one: the error of the first that is refused. */
  function ComponentsRefused(products: map<int, Product>, pk: int, saved: set<int>,
                             components: seq<Component>): Option<CreateError>
    decreases components
  {
    if components == [] then None
    else if components[0].product == pk then Some(SelfReference)
    else if components[0].product !in products || components[0].product in saved then Some(IntegrityError)
    else ComponentsRefused(products, pk, saved + {components[0].product}, components[1..])
  }

  /** One transaction: the store after it, or the error that rolls it back. */
  function Create(s: Store, cmd: Command, pk: int): Result<Store, CreateError> {
    if cmd.kind == Combo && cmd.recipe.None? then Err(RecipeRequired)
    else if cmd.kind != Combo && cmd.recipe.Some? then Err(RecipeNotAllowed)
    else if exists id :: id in s.products && s.products[id].code == cmd.code then Err(IntegrityError)
    else if !RefersToRows(s.lookups, cmd) then Err(IntegrityError)
    else
      var products := s.products[pk := Product(cmd.code, cmd.kind)];
      if cmd.recipe.None? then Ok(s.(products := products))
      else
        match ComponentsRefused(products, pk, {}, cmd.recipe.value.components)
        case Some(e) => Err(e)
        case None => Ok(Store(s.lookups, products, s.recipes[pk := cmd.recipe.value.components]))
  }

  class CatalogStore {
    const lookups: Lookups
    var products: map<int, Product>
    var recipes: map<int, seq<Component>>

    constructor (lookups: Lookups)
      ensures Current() == Store(lookups, map[], map[])
    {
      this.lookups, products, recipes := lookups, map[], map[];
    }

    function Current(): Store
      reads this
    {
      Store(lookups, products, recipes)
    }

    /** CreateProduct.execute; pk is the fresh key the database assigns. */
    method Execute(cmd: Command, pk: int) returns (r: Result<int, CreateError>)
      requires pk !in products && pk !in recipes
      modifies this
      ensures match Create(old(Current()), cmd, pk)
              case Ok(after) => Current() == after && r == Ok(pk)
              case Err(e) => Current() == old(Current()) && r == Err(e)
      ensures r.Ok? ==> pk in products && products[pk] == Product(cmd.code, cmd.kind)
      ensures r.Ok? && cmd.kind == Combo ==>
                cmd.recipe.Some? && pk in recipes && recipes[pk] == cmd.recipe.value.components
    {
      if cmd.kind == Combo && cmd.recipe.None? {
        return Err(RecipeRequired);
      }
      if cmd.kind != Combo && cmd.recipe.Some? {
        return Err(RecipeNotAllowed);
      }
      if exists id :: id in products && products[id].code == cmd.code {
        return Err(IntegrityError);
      }
      if !RefersToRows(lookups, cmd) {
        return Err(IntegrityError);
      }
      var savepoint := Current();
      products := products[pk := Product(cmd.code, cmd.kind)];
      if cmd.recipe.Some? {
        var components := cmd.recipe.value.components;
        recipes := recipes[pk := []];
        var saved: set<int> := {};
        for i := 0 to |components|
          invariant savepoint == old(Current())
          invariant products == savepoint.products[pk := Product(cmd.code, cmd.kind)]
          invariant recipes == savepoint.recipes[pk := components[..i]]
          invariant ComponentsRefused(products, pk, {}, components)
                    == ComponentsRefused(products, pk, saved, components[i..])
        {
          var c := components[i];
          if c.product == pk || c.product !in products || c.product in saved {
            products, recipes := savepoint.products, savepoint.recipes;
            return Err(if c.product == pk then SelfReference else IntegrityError);
          }
          saved := saved + {c.product};
          recipes := recipes[pk := recipes[pk] + [c]];
          assert components[..i + 1] == components[..i] + [c];
          assert components[i..][1..] == components[i + 1..];
        }
        assert components[..|components|] == components;
      }
      r := Ok(pk);
    }
  }

  // ----- the combo graph ---------------------------------------------------------

  ghost predicate Contains(s: Store, owner: int, part: int) {
    owner in s.recipes && exists c :: c in s.recipes[owner] && c.product == part
  }

  /** A chain of combos, each containing the next. */
  ghost predicate Chain(s: Store, path: seq<int>) {
    |path| >= 2 && forall i :: 0 <= i < |path| - 1 ==> Contains(s, path[i], path[i + 1])
  }

  /** No product reaches itself, directly or through other combos. */
  ghost predicate Acyclic(s: Store) {
    forall path :: Chain(s, path) ==> path[0] != path[|path| - 1]
  }

  /** Recipes belong to existing combos, hold existing products, and being a combo means having a non-empty recipe. */
  ghost predicate Sound(s: Store) {
    && Acyclic(s)
    && (forall id :: id in s.recipes ==> id in s.products)
    && (forall x, y :: Contains(s, x, y) ==> y in s.products)
    && (forall id :: id in s.products ==> (s.products[id].kind == Combo <==> id in s.recipes && s.recipes[id] != []))
    && (forall x, y :: x in s.products && y in s.products && s.products[x].code == s.products[y].code ==> x == y)
  }

  predicate ValidCommand(cmd: Command) {
    cmd.recipe.Some? ==> cmd.recipe.value.components != []
  }

  lemma {:induction false} AcceptedComponents(products: map<int, Product>, pk: int, saved: set<int>,
                                              components: seq<Component>)
    requires ComponentsRefused(products, pk, saved, components).None?
    ensures forall c :: c in components ==> c.product in products && c.product != pk && c.product !in saved
    ensures forall i, j :: 0 <= i < j < |components| ==> components[i].product != components[j].product
    decreases components
  {
    if components != [] {
      AcceptedComponents(products, pk, saved + {components[0].product}, components[1..]);
      assert forall c :: c in components[1..] ==> c.product !in saved + {components[0].product};
      forall i, j | 0 <= i < j < |components|
        ensures components[i].product != components[j].product
      {
        assert components[j] in components[1..];
      }
    }
  }

  lemma {:induction false} ComponentsAcceptedIff(products: map<int, Product>, pk: int, saved: set<int>,
                                                 components: seq<Component>)
    requires forall c :: c in components ==> c.product in products && c.product != pk && c.product !in saved
    requires forall i, j :: 0 <= i < j < |components| ==> components[i].product != components[j].product
    ensures ComponentsRefused(products, pk, saved, components).None?
    decreases components
  {
    if components != [] {
      assert components[0] in components;
      forall c | c in components[1..]
        ensures c.product !in saved + {components[0].product}
      {
        var j :| 0 <= j < |components[1..]| && components[1..][j] == c;
        assert components[j + 1] == c;
      }
      ComponentsAcceptedIff(products, pk, saved + {components[0].product}, components[1..]);
    }
  }

  /** A product is created exactly when its code is new, the rows it refers to exist and it has a recipe if and
      only if it is a combo, the recipe holding distinct products that already exist. */
  lemma CreateAcceptedIff(s: Store, cmd: Command, pk: int)
    requires pk !in s.products
    ensures Create(s, cmd, pk).Ok? <==>
      && (cmd.kind == Combo <==> cmd.recipe.Some?)
      && (forall id :: id in s.products ==> s.products[id].code != cmd.code)
      && cmd.category in s.lookups.categories && cmd.unit in s.lookups.units
      && (cmd.brand == None || cmd.brand.value in s.lookups.brands)
      && (cmd.tax == None || cmd.tax.value in s.lookups.taxes)
      && (cmd.recipe.Some? ==> var components := cmd.recipe.value.components;
            && (forall c :: c in components ==> c.product in s.products)
            && (forall i, j :: 0 <= i < j < |components| ==> components[i].product != components[j].product))
  {
    if cmd.recipe.Some? {
      var products, components := s.products[pk := Product(cmd.code, cmd.kind)], cmd.recipe.value.components;
      if ComponentsRefused(products, pk, {}, components).None? {
        AcceptedComponents(products, pk, {}, components);
      } else if (forall c :: c in components ==> c.product in s.products)
                && (forall i, j :: 0 <= i < j < |components| ==> components[i].product != components[j].product) {
        ComponentsAcceptedIff(products, pk, {}, components);
      }
    }
  }

  /** What a created product leaves behind: its code and kind under its key, its components if it is a combo, and
      every other product and recipe as before. */
  lemma CreatedIs(s: Store, cmd: Command, pk: int)
    requires pk !in s.products && pk !in s.recipes && Create(s, cmd, pk).Ok?
    ensures var after := Create(s, cmd, pk).value;
      && after.lookups == s.lookups
      && after.products.Keys == s.products.Keys + {pk}
      && after.products[pk].code == cmd.code && after.products[pk].kind == cmd.kind
      && (forall id :: id in s.products ==> after.products[id] == s.products[id])
      && after.recipes.Keys == s.recipes.Keys + (if cmd.kind == Combo then {pk} else {})
      && (cmd.kind == Combo ==> cmd.recipe.Some? && after.recipes[pk] == cmd.recipe.value.components)
      && (forall id :: id in s.recipes ==> after.recipes[id] == s.recipes[id])
  {
  }

  lemma NewEdges(s: Store, cmd: Command, pk: int, x: int, y: int)
    requires Sound(s) && pk !in s.products && Create(s, cmd, pk).Ok?
    requires Contains(Create(s, cmd, pk).value, x, y)
    ensures y in s.products
    ensures x != pk ==> Contains(s, x, y)
  {
    var after := Create(s, cmd, pk).value;
    if cmd.recipe.Some? {
      AcceptedComponents(s.products[pk := Product(cmd.code, cmd.kind)], pk, {}, cmd.recipe.value.components);
    }
    assert x != pk || pk !in s.recipes;
    assert x != pk ==> Contains(s, x, y);
  }

  /** A link of a chain in the new store: it enters an old product, and unless it leaves the new one it is old. */
  ghost predicate OldLink(s: Store, pk: int, path: seq<int>, i: nat) {
    i + 1 < |path| && path[i + 1] in s.products && (path[i] != pk ==> Contains(s, path[i], path[i + 1]))
  }

  /** A chain that comes back to its start enters every node it visits, so it never visits the new product. */
  lemma ClosedChainIsOld(s: Store, pk: int, path: seq<int>)
    requires pk !in s.products && |path| >= 2 && path[0] == path[|path| - 1]
    requires forall i :: 0 <= i < |path| - 1 ==> OldLink(s, pk, path, i)
    ensures Chain(s, path)
  {
    forall i | 0 <= i < |path| - 1
      ensures Contains(s, path[i], path[i + 1])
    {
      assert OldLink(s, pk, path, i);
      assert OldLink(s, pk, path, if i == 0 then |path| - 2 else i - 1);
    }
  }

  lemma CreateKeepsAcyclic(s: Store, cmd: Command, pk: int)
    requires Sound(s) && pk !in s.products && Create(s, cmd, pk).Ok?
    ensures Acyclic(Create(s, cmd, pk).value)
  {
    hide Sound, Create, Contains;
    var after := Create(s, cmd, pk).value;
    SoundIsAcyclic(s);
    forall path | Chain(after, path)
      ensures path[0] != path[|path| - 1]
    {
      forall i | 0 <= i < |path| - 1
        ensures OldLink(s, pk, path, i)
      {
        NewEdges(s, cmd, pk, path[i], path[i + 1]);
      }
      if path[0] == path[|path| - 1] {
        ClosedChainIsOld(s, pk, path);
        assert false;
      }
    }
  }

  lemma SoundIsAcyclic(s: Store)
    requires Sound(s)
    ensures Acyclic(s)
  {
  }

  /** Creating a product keeps the catalog sound. */
  lemma CreateKeepsSound(s: Store, cmd: Command, pk: int)
    requires Sound(s) && ValidCommand(cmd) && pk !in s.products && Create(s, cmd, pk).Ok?
    ensures Sound(Create(s, cmd, pk).value)
  {
    hide Acyclic;
    var after := Create(s, cmd, pk).value;
    CreateKeepsAcyclic(s, cmd, pk);
    forall x, y | Contains(after, x, y)
      ensures y in after.products
    {
      NewEdges(s, cmd, pk, x, y);
    }
  }

  // ----- runs ----------------------------------------------------------------------

  datatype Call = Call(cmd: Command, pk: int)

  function Run(s: Store, calls: seq<Call>): Store {
    if calls == [] then s
    else
      var before := Run(s, calls[..|calls| - 1]);
      match Create(before, calls[|calls| - 1].cmd, calls[|calls| - 1].pk)
      case Ok(after) => after
      case Err(_) => before
  }

  /** The database hands every call a key no product has. */
  ghost predicate FreshKeys(s: Store, calls: seq<Call>) {
    calls == [] || (FreshKeys(s, calls[..|calls| - 1])
                    && calls[|calls| - 1].pk !in Run(s, calls[..|calls| - 1]).products)
  }

  /** Every run from the empty catalog stays acyclic, with combos exactly the products that have components. */
  lemma {:induction false} RunKeepsSound(lookups: Lookups, calls: seq<Call>)
    requires FreshKeys(Store(lookups, map[], map[]), calls) && forall c :: c in calls ==> ValidCommand(c.cmd)
    ensures Sound(Run(Store(lookups, map[], map[]), calls))
  {
    if calls == [] {
      EmptyIsSound(lookups);
    } else {
      hide Sound, Create;
      RunKeepsSound(lookups, calls[..|calls| - 1]);
      var before, last := Run(Store(lookups, map[], map[]), calls[..|calls| - 1]), calls[|calls| - 1];
      if Create(before, last.cmd, last.pk).Ok? {
        CreateKeepsSound(before, last.cmd, last.pk);
      }
    }
  }

  lemma EmptyIsSound(lookups: Lookups)
    ensures Sound(Store(lookups, map[], map[]))
  {
    var empty := Store(lookups, map[], map[]);
    forall path: seq<int>
      ensures !Chain(empty, path)
    {
      if |path| >= 2 {
        assert !Contains(empty, path[0], path[0 + 1]);
      }
    }
  }
}
