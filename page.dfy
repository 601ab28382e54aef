/** The page state the script keeps: the category button strip with its one
    active button, the card grid with its loading indicator, the cart, and the
    selected category id. Network responses arrive as method arguments. */
module Page {
  import opened JsValues
  import opened Shapes
  import opened CartModel

  // ---------------------------------------------------------------------
  // Exclusive selection
  // ---------------------------------------------------------------------

  /** The number of buttons carrying the active style. */
  function CountTrue(s: seq<bool>): nat
  {
    if s == [] then 0 else CountTrue(s[..|s| - 1]) + (if s[|s| - 1] then 1 else 0)
  }

  /** Button `b` is active and no other button is. */
  ghost predicate OnlyActive(active: seq<bool>, b: int) {
    0 <= b < |active| && active[b] && forall j :: 0 <= j < |active| && j != b ==> !active[j]
  }

  function Falses(n: nat): (s: seq<bool>)
    ensures |s| == n && forall j :: 0 <= j < n ==> !s[j]
  {
    seq(n, _ => false)
  }

  lemma {:induction false} CountTrueNone(s: seq<bool>)
    requires forall j :: 0 <= j < |s| ==> !s[j]
    ensures CountTrue(s) == 0
  {
    if s != [] {
      CountTrueNone(s[..|s| - 1]);
    }
  }

  /** Exactly one active button, in the sense of a count. */
  lemma {:induction false} OnlyActiveCount(active: seq<bool>, b: int)
    requires OnlyActive(active, b)
    ensures CountTrue(active) == 1
  {
    var n := |active|;
    var init := active[..n - 1];
    if b == n - 1 {
      CountTrueNone(init);
    } else {
      assert OnlyActive(init, b);
      OnlyActiveCount(init, b);
    }
  }

  /** Conversely, a count of one names the single active button. */
  lemma {:induction false} CountOneIsOnlyActive(active: seq<bool>) returns (b: nat)
    requires CountTrue(active) == 1
    ensures OnlyActive(active, b)
  {
    var n := |active|;
    var init := active[..n - 1];
    if active[n - 1] {
      assert CountTrue(init) == 0;
      CountZeroNone(init);
      b := n - 1;
    } else {
      b := CountOneIsOnlyActive(init);
    }
  }

  lemma {:induction false} CountZeroNone(s: seq<bool>)
    requires CountTrue(s) == 0
    ensures forall j :: 0 <= j < |s| ==> !s[j]
  {
    if s != [] {
      CountZeroNone(s[..|s| - 1]);
    }
  }

  lemma {:induction false} CountTrueAppendFalses(s: seq<bool>, n: nat)
    ensures CountTrue(s + Falses(n)) == CountTrue(s)
  {
    if n > 0 {
      assert (s + Falses(n))[..|s| + n - 1] == s + Falses(n - 1);
      CountTrueAppendFalses(s, n - 1);
    } else {
      assert s + Falses(0) == s;
    }
  }

  /** The category buttons and which of them carries the active style. */
  class CategoryStrip {
    var buttons: seq<Category>
    var active: seq<bool>

    /** One style flag per button, and exactly one button active. */
    ghost predicate Valid()
      reads this
    {
      |active| == |buttons| && CountTrue(active) == 1
    }

    /** The first, synchronous step of loadCategories: the strip is replaced by
        the "All Trees" button, made active. */
    constructor ()
      ensures Valid() && buttons == [AllTrees] && OnlyActive(active, 0)
    {
      buttons := [];
      active := [];
      new;
      RenderCategoryButtons([AllTrees], true);
      OnlyActiveCount(active, 0);
    }

    /** setActiveButton: clear the active style on every button, then set it on `b`. */
    method SetActiveButton(b: nat)
      requires b < |active|
      modifies this`active
      ensures |active| == old(|active|)
      ensures OnlyActive(active, b)
    {
      var i := 0;
      while i < |active|
        invariant 0 <= i <= |active| == old(|active|)
        invariant forall j :: 0 <= j < i ==> !active[j]
      {
        active := active[i := false];
        i := i + 1;
      }
      active := active[b := true];
    }

    /** renderCategoryButtons: append one button per category (after clearing
        the strip when `replace`); with `replace` the first new button becomes
        the active one. */
    method RenderCategoryButtons(cats: seq<Category>, replace: bool)
      requires |active| == |buttons|
      modifies this
      ensures |active| == |buttons|
      ensures replace ==> buttons == cats
      ensures replace && |cats| > 0 ==> OnlyActive(active, 0)
      ensures replace && |cats| == 0 ==> active == []
      ensures !replace ==> buttons == old(buttons) + cats && active == old(active) + Falses(|cats|)
    {
      if replace {
        buttons := [];
        active := [];
      }
      var idx := 0;
      while idx < |cats|
        invariant 0 <= idx <= |cats|
        invariant |active| == |buttons|
        invariant buttons == (if replace then [] else old(buttons)) + cats[..idx]
        invariant replace && idx > 0 ==> OnlyActive(active, 0)
        invariant replace && idx == 0 ==> active == []
        invariant !replace ==> active == old(active) + Falses(idx)
      {
        buttons := buttons + [cats[idx]];
        active := active + [false];
        if replace && idx == 0 {
          SetActiveButton(0);
        }
        assert Falses(idx + 1) == Falses(idx) + [false];
        idx := idx + 1;
      }
      assert cats[..idx] == cats;
    }
  }

  // ---------------------------------------------------------------------
  // Card grid
  // ---------------------------------------------------------------------

  datatype GridNode = Card(plant: PlantSummary) | EmptyState | ErrorState

  /** The length of the longest prefix of records without a nullish one. */
  function NullishFreePrefix(trees: seq<Value>): (k: nat)
    ensures k <= |trees|
    ensures forall j :: 0 <= j < k ==> !Nullish(trees[j])
    ensures k < |trees| ==> Nullish(trees[k])
  {
    if trees == [] || Nullish(trees[0]) then 0
    else
      assert forall j :: 1 <= j < |trees| ==> trees[j] == trees[1..][j - 1];
      1 + NullishFreePrefix(trees[1..])
  }

  /** The cards area and its loading indicator (the grid is hidden exactly
      while the indicator shows). */
  class CardGrid {
    var nodes: seq<GridNode>
    var spinnerShown: bool

    constructor ()
      ensures nodes == [] && !spinnerShown
    {
      nodes := [];
      spinnerShown := false;
    }

    /** showSpinner */
    method ShowSpinner(flag: bool)
      modifies this`spinnerShown
      ensures spinnerShown == flag
    {
      spinnerShown := flag;
    }

    /** renderCards: one card per record in order, or a single empty-state node
        for no records. A nullish record makes the destructuring throw: `ok` is
        false and the cards built before it stay in place. */
    method RenderCards(trees: seq<Value>) returns (ok: bool)
      modifies this`nodes
      ensures ok <==> NullishFreePrefix(trees) == |trees|
      ensures ok && |trees| == 0 ==> nodes == [EmptyState]
      ensures ok && |trees| > 0 ==>
        |nodes| == |trees| && forall j :: 0 <= j < |trees| ==> nodes[j] == Card(Summarize(trees[j]))
      ensures !ok ==> var k := NullishFreePrefix(trees);
        |nodes| == k && forall j :: 0 <= j < k ==> nodes[j] == Card(Summarize(trees[j]))
    {
      nodes := [];
      var i := 0;
      while i < |trees|
        invariant 0 <= i <= |trees|
        invariant forall j :: 0 <= j < i ==> !Nullish(trees[j])
        invariant |nodes| == i && forall j :: 0 <= j < i ==> nodes[j] == Card(Summarize(trees[j]))
      {
        if Nullish(trees[i]) {
          ghost var k := NullishFreePrefix(trees);
          assert k == i;
          ok := false;
          return;
        }
        nodes := nodes + [Card(Summarize(trees[i]))];
        i := i + 1;
      }
      if |trees| == 0 {
        nodes := [EmptyState];
      }
      ok := true;
    }
  }

  // ---------------------------------------------------------------------
  // The storefront
  // ---------------------------------------------------------------------

  class Storefront {
    const cart: Cart
    const strip: CategoryStrip
    const grid: CardGrid
    var currentCategoryId: Value
    /** The endpoint of the most recent `loadTrees` request. */
    ghost var requested: Endpoint

    ghost predicate Valid()
      reads this, cart, strip
    {
      cart.Valid() && strip.Valid()
    }

    /** Page load: the synchronous parts of `loadCategories()` and `loadTrees()`
        run, leaving "All Trees" active, the loading indicator shown and all
        plants requested. */
    constructor ()
      ensures Valid() && fresh(cart) && fresh(strip) && fresh(grid)
      ensures cart.items == [] && strip.buttons == [AllTrees] && OnlyActive(strip.active, 0)
      ensures currentCategoryId == Str("") && grid.spinnerShown && grid.nodes == []
      ensures requested == AllPlants
    {
      cart := new Cart();
      strip := new CategoryStrip();
      grid := new CardGrid();
      currentCategoryId := Str("");
      new;
      var e := LoadTrees(Str(""));
    }

    /** The rest of loadCategories once the category payload is decoded: the
        categories are appended, inactive, after the buttons already shown;
        if reading the payload throws, the strip stays as it is. */
    method CategoriesLoaded(payload: Value)
      requires Valid()
      modifies strip
      ensures Valid()
      ensures LoadedCategories(payload).Some? ==>
        strip.buttons == old(strip.buttons) + LoadedCategories(payload).value
        && strip.active == old(strip.active) + Falses(|LoadedCategories(payload).value|)
      ensures LoadedCategories(payload).None? ==>
        strip.buttons == old(strip.buttons) && strip.active == old(strip.active)
      ensures forall j :: 0 <= j < |old(strip.active)| ==> strip.active[j] == old(strip.active)[j]
    {
      var cats := LoadedCategories(payload);
      if cats.Some? {
        strip.RenderCategoryButtons(cats.value, false);
        CountTrueAppendFalses(old(strip.active), |cats.value|);
      }
    }

    /** loadTrees, up to the fetch: show the indicator and pick the endpoint. */
    method LoadTrees(categoryId: Value) returns (e: Endpoint)
      modifies this`requested, grid`spinnerShown
      ensures grid.spinnerShown
      ensures e.ByCategory? <==> Truthy(categoryId)
      ensures e == TreesEndpoint(categoryId) && requested == e
    {
      grid.ShowSpinner(true);
      e := TreesEndpoint(categoryId);
      requested := e;
    }

    /** loadTrees after the fetch: `None` stands for a failed fetch or body
        decode. The error node replaces the grid on any failure, including a
        throw inside renderCards; the indicator is hidden in every case. */
    method TreesLoaded(response: Option<Value>)
      modifies grid
      ensures !grid.spinnerShown
      ensures response.None? ==> grid.nodes == [ErrorState]
      ensures response.Some? ==> var trees := ParseDataArray(response.value);
        (NullishFreePrefix(trees) < |trees| ==> grid.nodes == [ErrorState])
        && (|trees| == 0 ==> grid.nodes == [EmptyState])
        && (NullishFreePrefix(trees) == |trees| && |trees| > 0 ==>
              |grid.nodes| == |trees|
              && forall j :: 0 <= j < |trees| ==> grid.nodes[j] == Card(Summarize(trees[j])))
    {
      if response.None? {
        grid.nodes := [ErrorState];
      } else {
        var ok := grid.RenderCards(ParseDataArray(response.value));
        if !ok {
          grid.nodes := [ErrorState];
        }
      }
      grid.ShowSpinner(false);
    }

    /** onCategoryClick: record the normalised id, make the clicked button the
        only active one, and start loadTrees for that id. */
    method OnCategoryClick(id: Value, b: nat) returns (e: Endpoint)
      requires Valid() && b < |strip.buttons|
      modifies this`currentCategoryId, this`requested, strip`active, grid`spinnerShown
      ensures Valid()
      ensures currentCategoryId == NormalizeId(id)
      ensures OnlyActive(strip.active, b)
      ensures grid.spinnerShown
      ensures e.ByCategory? <==> Truthy(id)
      ensures Truthy(id) ==> e == TreesEndpoint(id)
      ensures !Truthy(id) ==> e == AllPlants
      ensures requested == e
    {
      currentCategoryId := NormalizeId(id);
      strip.SetActiveButton(b);
      OnlyActiveCount(strip.active, b);
      e := LoadTrees(currentCategoryId);
    }

    /** A click on category button `b`, whose listener passes the button's own id. */
    method ClickCategory(b: nat) returns (e: Endpoint)
      requires Valid() && b < |strip.buttons|
      modifies this`currentCategoryId, this`requested, strip`active, grid`spinnerShown
      ensures Valid()
      ensures currentCategoryId == NormalizeId(strip.buttons[b].id)
      ensures OnlyActive(strip.active, b)
      ensures grid.spinnerShown
      ensures e.ByCategory? <==> Truthy(strip.buttons[b].id)
      ensures e == TreesEndpoint(NormalizeId(strip.buttons[b].id)) && requested == e
    {
      e := OnCategoryClick(strip.buttons[b].id, b);
    }

    /** A click on the "Add to Cart" control of card `c`: the cart receives the
        id, name and price the card captured when it was rendered. */
    method ClickAddToCart(c: nat)
      requires Valid() && c < |grid.nodes| && grid.nodes[c].Card?
      modifies cart
      ensures Valid()
      ensures var p := old(grid.nodes[c].plant);
        cart.items == old(cart.items) + [CartItem(p.id, p.name, p.price)]
    {
      var p := grid.nodes[c].plant;
      cart.AddToCart(CartItem(p.id, p.name, p.price));
    }
  }

  /** A client of the cart: prices 100, 250 and 75 total 425; removing
      the second item leaves 100 and 75, totalling 175. */
  // The prices are parameters pinned by the precondition rather than literals, so
  // that the solver does not unroll `Money` and `IntToString` on the literal totals.
  method CartScenario(a: Value, b: Value, c: Value, p: int, q: int, r: int)
    requires p == 100 && q == 250 && r == 75
  {
    var cart := new Cart();
    var x := CartItem(a, Str("Neem"), Num(Int(p)));
    var y := CartItem(b, Str("Mango"), Num(Int(q)));
    var z := CartItem(c, Str("Jamun"), Num(Int(r)));
    cart.AddToCart(x);
    cart.AddToCart(y);
    cart.AddToCart(z);
    assert cart.total == Int(425);
    cart.RemoveFromCart(1);
    assert cart.items == [x, z];
    assert cart.total == Int(175);
    assert cart.totalText == CURRENCY + IntToString(175);
  }
}
