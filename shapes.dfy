/** The pure decisions of the storefront script: tolerant payload parsing,
    per-field fallbacks for category and plant records, price formatting,
    category-id normalisation and the choice of catalog endpoint. */
module Shapes {
  import opened JsValues

  /** The currency glyph, U+09F3 BENGALI RUPEE SIGN. */
  const CURRENCY: string := "\U{09F3}"

  /** The em dash used as placeholder text on cards. */
  const DASH: string := "\U{2014}"

  /** The wrapper keys `parseDataArray` tries, in priority order. */
  const WrapperKeys: seq<string> := ["data", "plants", "items"]

  /** `r` is the first non-nullish candidate, or `dflt` when every candidate is nullish:
      the meaning of a chain `c0 ?? c1 ?? ... ?? dflt`. */
  ghost predicate FirstPresent(cands: seq<Value>, dflt: Value, r: Value) {
    (exists i :: 0 <= i < |cands| && r == cands[i] && !Nullish(cands[i])
                 && forall j :: 0 <= j < i ==> Nullish(cands[j]))
    || ((forall j :: 0 <= j < |cands| ==> Nullish(cands[j])) && r == dflt)
  }

  /** `r` is the first truthy candidate, or `last` when none is truthy:
      the meaning of a chain `c0 || c1 || ... || last`. */
  ghost predicate FirstTruthy(cands: seq<Value>, last: Value, r: Value) {
    (exists i :: 0 <= i < |cands| && r == cands[i] && Truthy(cands[i])
                 && forall j :: 0 <= j < i ==> !Truthy(cands[j]))
    || ((forall j :: 0 <= j < |cands| ==> !Truthy(cands[j])) && r == last)
  }

  // ---------------------------------------------------------------------
  // Payload shapes
  // ---------------------------------------------------------------------

  /** parseDataArray: an array is returned as it is; otherwise the first of
      the wrapper fields that holds an array; otherwise the empty list. */
  function ParseDataArray(json: Value): (r: seq<Value>)
    ensures json.Arr? ==> r == json.items
    ensures !json.Arr? ==>
      (exists k :: 0 <= k < |WrapperKeys| && Get(json, WrapperKeys[k]) == Arr(r)
                   && forall j :: 0 <= j < k ==> !Get(json, WrapperKeys[j]).Arr?)
      || ((forall j :: 0 <= j < |WrapperKeys| ==> !Get(json, WrapperKeys[j]).Arr?) && r == [])
  {
    assert WrapperKeys[0] == "data" && WrapperKeys[1] == "plants" && WrapperKeys[2] == "items";
    if json.Arr? then json.items
    else if Get(json, "data").Arr? then Get(json, "data").items
    else if Get(json, "plants").Arr? then Get(json, "plants").items
    else if Get(json, "items").Arr? then Get(json, "items").items
    else []
  }

  /** Each wrapper the catalog service is known to use yields its list, and an
      object without any of them yields the empty list. */
  lemma ParseDataArrayWrappers(xs: seq<Value>, k: string)
    requires k in WrapperKeys
    ensures ParseDataArray(Arr(xs)) == xs
    ensures ParseDataArray(Obj(map[k := Arr(xs)])) == xs
    ensures ParseDataArray(Obj(map[])) == []
    ensures ParseDataArray(Null) == []
  {
  }

  /** parseSingle: `json?.data || json?.plant || json?.item || json`. */
  function ParseSingle(json: Value): (r: Value)
    ensures FirstTruthy([Get(json, "data"), Get(json, "plant"), Get(json, "item")], json, r)
  {
    // The candidate list, spelled out so that FirstTruthy's quantifiers see each element.
    var cands := [Get(json, "data"), Get(json, "plant"), Get(json, "item")];
    assert cands[0] == Get(json, "data") && cands[1] == Get(json, "plant") && cands[2] == Get(json, "item");
    Or(Or(Or(Get(json, "data"), Get(json, "plant")), Get(json, "item")), json)
  }

  /** parseSingle returns something truthy exactly when it is given something
      truthy: the fields it prefers exist only on objects. */
  lemma ParseSingleTruthy(json: Value)
    ensures Truthy(ParseSingle(json)) <==> Truthy(json)
    ensures !json.Obj? ==> ParseSingle(json) == json
  {
  }

  // ---------------------------------------------------------------------
  // Prices
  // ---------------------------------------------------------------------

  /** money: the currency glyph followed by `Number(num || 0)`. */
  function Money(num: Value): (r: string)
    ensures |r| >= 2 && r[..1] == CURRENCY
    ensures !Truthy(num) ==> r == CURRENCY + "0"
    ensures num.Num? && num.n.Int? ==> r == CURRENCY + IntToString(num.n.i)
    ensures num.Num? && num.n.Int? ==> StringToNumber(r[1..]) == num.n
  {
    var shown := NumberToString(ToNumber(Or(num, Num(Int(0)))));
    assert |shown| >= 1 by {
      if ToNumber(Or(num, Num(Int(0)))).NaN? { assert shown == "NaN"; }
    }
    assert (CURRENCY + shown)[1..] == shown;
    CURRENCY + shown
  }

  // ---------------------------------------------------------------------
  // Category records
  // ---------------------------------------------------------------------

  datatype Category = Category(id: Value, name: Value)

  /** The synthetic first button, shown before any category is fetched. */
  const AllTrees: Category := Category(Str(""), Str("All Trees"))

  /** The record-to-category mapping of loadCategories; a nullish record makes
      the property read throw, which is `None` here. */
  function CategoryOf(c: Value): (r: Option<Category>)
    ensures r.None? <==> Nullish(c)
    ensures r.Some? ==> FirstPresent([Get(c, "id"), Get(c, "category_id"), Get(c, "_id")], Str(""), r.value.id)
    ensures r.Some? ==> FirstPresent([Get(c, "category"), Get(c, "category_name"), Get(c, "name")], Str("Unnamed"), r.value.name)
  {
    if Nullish(c) then None
    else
      // The candidate lists, spelled out so that FirstPresent's quantifiers see each element.
      var ids := [Get(c, "id"), Get(c, "category_id"), Get(c, "_id")];
      var names := [Get(c, "category"), Get(c, "category_name"), Get(c, "name")];
      assert ids[0] == Get(c, "id") && ids[1] == Get(c, "category_id") && ids[2] == Get(c, "_id");
      assert names[0] == Get(c, "category") && names[1] == Get(c, "category_name") && names[2] == Get(c, "name");
      Some(Category(
        Coalesce(Coalesce(Coalesce(Get(c, "id"), Get(c, "category_id")), Get(c, "_id")), Str("")),
        Coalesce(Coalesce(Coalesce(Get(c, "category"), Get(c, "category_name")), Get(c, "name")), Str("Unnamed"))))
  }

  /** `records.map(CategoryOf)`, which throws (`None`) at the first nullish record. */
  function CategoriesOf(records: seq<Value>): (r: Option<seq<Category>>)
    ensures r.Some? <==> forall i :: 0 <= i < |records| ==> !Nullish(records[i])
    ensures r.Some? ==> |r.value| == |records|
                        && forall i :: 0 <= i < |records| ==> CategoryOf(records[i]) == Some(r.value[i])
  {
    if records == [] then Some([])
    else
      match CategoryOf(records[0])
      case None => None
      case Some(c) =>
        match CategoriesOf(records[1..])
        case None => None
        case Some(rest) =>
          assert forall i :: 1 <= i < |records| ==> records[i] == records[1..][i - 1];
          Some([c] + rest)
  }

  /** The categories loadCategories appends after the "All Trees" button, given
      the decoded response; `None` when reading `categories` or a record throws. */
  function LoadedCategories(payload: Value): (r: Option<seq<Category>>)
    ensures var records := ParseDataArray(Get(payload, "categories"));
      r.Some? <==> !Nullish(payload) && forall i :: 0 <= i < |records| ==> !Nullish(records[i])
    ensures var records := ParseDataArray(Get(payload, "categories"));
      r.Some? ==> |r.value| == |records|
                  && forall i :: 0 <= i < |records| ==> CategoryOf(records[i]) == Some(r.value[i])
  {
    if Nullish(payload) then None else CategoriesOf(ParseDataArray(Get(payload, "categories")))
  }

  // ---------------------------------------------------------------------
  // Plant records
  // ---------------------------------------------------------------------

  datatype PlantSummary = PlantSummary(
    id: Value, name: Value, image: Value, shortDescription: Value, category: Value, price: Value)

  const PlaceholderImage: string := "https://placehold.co/600x400?text=Tree"

  /** The destructuring with defaults at the top of each renderCards step.
      A default applies only when the field is `undefined`; a `null` field is kept. */
  function Summarize(tree: Value): (p: PlantSummary)
    requires !Nullish(tree)
    ensures !Get(tree, "id").Undefined? ==> p.id == Get(tree, "id")
    ensures Get(tree, "id").Undefined? ==> FirstTruthy([Get(tree, "_id"), Get(tree, "plant_id")], Str(""), p.id)
    ensures p.name == (if Get(tree, "name").Undefined? then Str("Unnamed Tree") else Get(tree, "name"))
    ensures p.image == (if Get(tree, "image").Undefined? then Str(PlaceholderImage) else Get(tree, "image"))
    ensures !Get(tree, "short_description").Undefined? ==> p.shortDescription == Get(tree, "short_description")
    ensures Get(tree, "short_description").Undefined? ==> FirstTruthy([Get(tree, "description")], Str(DASH), p.shortDescription)
    ensures !Get(tree, "category").Undefined? ==> p.category == Get(tree, "category")
    ensures Get(tree, "category").Undefined? ==> FirstTruthy([Get(tree, "category_name"), Get(tree, "type")], Str(DASH), p.category)
    ensures p.price == (if Get(tree, "price").Undefined? then Num(Int(0)) else Get(tree, "price"))
  {
    // The candidate lists, spelled out so that FirstTruthy's quantifiers see each element.
    var ids := [Get(tree, "_id"), Get(tree, "plant_id")];
    var cats := [Get(tree, "category_name"), Get(tree, "type")];
    var descs := [Get(tree, "description")];
    assert ids[0] == Get(tree, "_id") && ids[1] == Get(tree, "plant_id");
    assert cats[0] == Get(tree, "category_name") && cats[1] == Get(tree, "type");
    assert descs[0] == Get(tree, "description");
    PlantSummary(
      Default(Get(tree, "id"), Or(Or(Get(tree, "_id"), Get(tree, "plant_id")), Str(""))),
      Default(Get(tree, "name"), Str("Unnamed Tree")),
      Default(Get(tree, "image"), Str(PlaceholderImage)),
      Default(Get(tree, "short_description"), Or(Get(tree, "description"), Str(DASH))),
      Default(Get(tree, "category"), Or(Or(Get(tree, "category_name"), Get(tree, "type")), Str(DASH))),
      Default(Get(tree, "price"), Coalesce(Get(tree, "price"), Num(Int(0)))))
  }

  /** A card whose record has no price, or a `null` one, shows the price as zero. */
  lemma MissingPriceShowsZero(tree: Value)
    requires !Nullish(tree)
    requires Nullish(Get(tree, "price"))
    ensures Money(Summarize(tree).price) == CURRENCY + "0"
  {
  }

  // ---------------------------------------------------------------------
  // Category selection and catalog endpoint
  // ---------------------------------------------------------------------

  /** onCategoryClick's `id || ""`. */
  function NormalizeId(id: Value): (r: Value)
    ensures Truthy(r) <==> Truthy(id)
    ensures Truthy(id) ==> r == id
    ensures !Truthy(id) ==> r == Str("")
  {
    Or(id, Str(""))
  }

  lemma NormalizeIdIdempotent(id: Value)
    ensures NormalizeId(NormalizeId(id)) == NormalizeId(id)
  {
  }

  datatype Endpoint = AllPlants | ByCategory(id: string)

  const ApiBase: string := "https://openapi.programming-hero.com/api/"
  const CategoryPrefix: string := ApiBase + "category/"
  const PlantsUrl: string := ApiBase + "plants"

  /** loadTrees' target: the category endpoint exactly when the id is truthy,
      with the id printed into the path; otherwise all plants. */
  function TreesEndpoint(categoryId: Value): (e: Endpoint)
    ensures e.ByCategory? <==> Truthy(categoryId)
    ensures e.ByCategory? && categoryId.Str? ==> e.id == categoryId.s
    ensures e.ByCategory? && categoryId.Num? ==> StringToNumber(e.id) == categoryId.n
  {
    if Truthy(categoryId) then ByCategory(ToStr(categoryId)) else AllPlants
  }

  function Url(e: Endpoint): (u: string)
    ensures e.AllPlants? ==> u == PlantsUrl
    ensures e.ByCategory? ==> |u| >= |CategoryPrefix| && u[..|CategoryPrefix|] == CategoryPrefix
                              && u[|CategoryPrefix|..] == e.id
  {
    match e
    case AllPlants => PlantsUrl
    case ByCategory(id) => CategoryPrefix + id
  }

  /** Different endpoints are fetched from different URLs. */
  lemma UrlInjective(a: Endpoint, b: Endpoint)
    requires Url(a) == Url(b)
    ensures a == b
  {
  }

  /** A click leads to the category endpoint exactly when the button's id is truthy. */
  lemma ClickedEndpoint(id: Value)
    ensures TreesEndpoint(NormalizeId(id)).ByCategory? <==> Truthy(id)
    ensures !Truthy(id) ==> Url(TreesEndpoint(NormalizeId(id))) == PlantsUrl
  {
  }
}
