/** The category listing page: its heading, its product-count label and the
    products listed for the route's `category` parameter. */
module CategoryPage {
  import opened Seqs
  import opened Catalog

  /** ASCII upper-casing of one character. */
  function UpperAscii(c: char): (u: char)
    ensures 'a' <= c <= 'z' ==> 'A' <= u <= 'Z' && u as int == c as int - 32
    ensures !('a' <= c <= 'z') ==> u == c
  {
    if 'a' <= c <= 'z' then (c as int - 32) as char else c
  }

  /** The route names that have a heading of their own. */
  predicate IsNamedCategory(name: string)
  {
    name in ["women", "men", "kurti", "kurtis", "jeans", "blazer", "blazers"]
  }

  /** The page heading: a fixed title for the named categories, otherwise the
      name with its first character upper-cased. */
  function FormatCategoryName(name: string): (r: string)
    ensures IsNamedCategory(name) ==> |r| > 0 && 'A' <= r[0] <= 'Z'
    ensures !IsNamedCategory(name) ==> |r| == |name|
    ensures !IsNamedCategory(name) && name != [] ==> r[0] == UpperAscii(name[0]) && r[1..] == name[1..]
  {
    match name
    case "women" => "Women's Collection"
    case "men" => "Men's Collection"
    case "kurti" => "Kurti Sets"
    case "kurtis" => "Kurti Sets"
    case "jeans" => "Jeans Collection"
    case "blazer" => "Blazers"
    case "blazers" => "Blazers"
    case _ => if name == [] then [] else [UpperAscii(name[0])] + name[1..]
  }

  /** Singular and plural route names share a heading. */
  lemma AliasesAgree()
    ensures FormatCategoryName("kurti") == FormatCategoryName("kurtis") == "Kurti Sets"
    ensures FormatCategoryName("blazer") == FormatCategoryName("blazers") == "Blazers"
    ensures FormatCategoryName("women") == "Women's Collection"
    ensures FormatCategoryName("men") == "Men's Collection"
    ensures FormatCategoryName("jeans") == "Jeans Collection"
    ensures FormatCategoryName("") == ""
  {
  }

  /** The noun after the product count: singular exactly for one product. */
  function CountLabel(count: nat): (r: string)
    ensures r == "product" <==> count == 1
    ensures r == "product" || r == "products"
  {
    if count == 1 then "product" else "products"
  }

  /** `category || ''`: a missing route parameter reads as the empty name. */
  function RouteCategory(category: Option<string>): (r: string)
    ensures category.Some? ==> r == category.value
    ensures category.None? ==> r == ""
  {
    if category.Some? then category.value else ""
  }

  /** The products the page lists. */
  function PageProducts(category: Option<string>): (r: seq<Product>)
    ensures forall p :: p in r <==> p in Products && Includes(p.category, RouteCategory(category))
    ensures forall p :: multiset(r)[p] == if Includes(p.category, RouteCategory(category))
                                         then multiset(Products)[p] else 0
    ensures IsSubsequence(r, Products)
  {
    ProductsByCategory(RouteCategory(category))
  }

  /** Without a route parameter the page lists the whole catalogue. */
  lemma MissingCategoryListsAll()
    ensures PageProducts(None) == Products
  {
    EmptyCategoryMatchesAll();
  }

  /** The plural routes linked from the navigation show a collection heading
      over an empty list: the tags in the catalogue are singular. */
  lemma PluralRoutesListNothing(route: string)
    requires route == "kurtis" || route == "blazers"
    ensures PageProducts(Some(route)) == []
  {
    PluralCategoriesMatchNothing(route);
  }

  /** The tag a route name stands for: plural aliases map to the singular
      catalogue tag. */
  function CanonicalTag(name: string): (r: string)
    ensures name !in ["kurtis", "blazers"] ==> r == name
    ensures IsNamedCategory(name) ==> r in ["women", "men", "kurti", "jeans", "blazer"]
  {
    if name == "kurtis" then "kurti" else if name == "blazers" then "blazer" else name
  }

  /** The listing with route aliases resolved before matching. */
  function AliasedPageProducts(category: Option<string>): (r: seq<Product>)
    ensures forall p :: p in r <==> p in Products && Includes(p.category, CanonicalTag(RouteCategory(category)))
    ensures forall p :: multiset(r)[p] == if Includes(p.category, CanonicalTag(RouteCategory(category)))
                                         then multiset(Products)[p] else 0
    ensures IsSubsequence(r, Products)
  {
    ProductsByCategory(CanonicalTag(RouteCategory(category)))
  }

  /** With aliases resolved, every route that has a heading of its own lists
      at least one product. */
  lemma NamedRoutesListProducts(route: string)
    requires IsNamedCategory(route)
    ensures AliasedPageProducts(Some(route)) != []
  {
    TagListsProduct(CanonicalTag(route));
  }

  /** Each of the five catalogue tags is contained in some product's category. */
  lemma TagListsProduct(tag: string)
    requires tag in ["women", "men", "kurti", "jeans", "blazer"]
    ensures ProductsByCategory(tag) != []
  {
    var i: int;
    if tag == "women" || tag == "men" {
      i := if tag == "women" then 0 else 1;
      CatalogueIncludesTags(i);
      assert tag == AudienceTag(i);
    } else {
      i := if tag == "kurti" then 0 else if tag == "jeans" then 1 else 2;
      CatalogueIncludesTags(i);
      assert tag == GarmentTag(i);
    }
    assert Products[i] in ProductsByCategory(tag);
  }
}
