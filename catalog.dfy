/** The product catalogue: the `Product` record and the constant list of
    products with its category, slug, related and featured queries. */
module Catalog {
  import opened Seqs

  /** A catalogue product. `price` is in whole currency units and `category`
      is a comma-joined list of tags such as "women,kurti". */
  datatype Product = Product(
    id: int,
    name: string,
    brand: string,
    price: int,
    image: string,
    category: string,
    slug: string)

  /** The eight mock products, in catalogue order. */
  const Products: seq<Product> :=
    [
      Product(1, "Elegant Embroidered Kurti Set", "Klassico", 2999,
        "https://images.unsplash.com/photo-1583391733956-3750e0ff4e8b?ixlib=rb-4.0.3&ixid=M3wxMjA3fDB8MHxwaG90by1wYWdlfHx8fGVufDB8fHx8fA%3D%3D&auto=format&fit=crop&w=774&q=80",
        "women,kurti", "elegant-embroidered-kurti-set"),
      Product(2, "Premium Slim-Fit Jeans", "Klassico", 1599,
        "https://images.unsplash.com/photo-1541099649105-f69ad21f3246?ixlib=rb-4.0.3&ixid=M3wxMjA3fDB8MHxwaG90by1wYWdlfHx8fGVufDB8fHx8fA%3D%3D&auto=format&fit=crop&w=774&q=80",
        "men,jeans", "premium-slim-fit-jeans"),
      Product(3, "Structured Wool Blazer", "Klassico", 4999,
        "https://images.unsplash.com/photo-1593030103066-0093718efeb9?ixlib=rb-4.0.3&ixid=M3wxMjA3fDB8MHxwaG90by1wYWdlfHx8fGVufDB8fHx8fA%3D%3D&auto=format&fit=crop&w=774&q=80",
        "men,blazer", "structured-wool-blazer"),
      Product(4, "Floral Print Kurti", "Klassico", 1899,
        "https://images.unsplash.com/photo-1614252235316-8c857d38b5f4?ixlib=rb-4.0.3&ixid=M3wxMjA3fDB8MHxwaG90by1wYWdlfHx8fGVufDB8fHx8fA%3D%3D&auto=format&fit=crop&w=774&q=80",
        "women,kurti", "floral-print-kurti"),
      Product(5, "Distressed Skinny Jeans", "Klassico", 1799,
        "https://images.unsplash.com/photo-1604176424472-17cd740f74e9?ixlib=rb-4.0.3&ixid=M3wxMjA3fDB8MHxwaG90by1wYWdlfHx8fGVufDB8fHx8fA%3D%3D&auto=format&fit=crop&w=774&q=80",
        "women,jeans", "distressed-skinny-jeans"),
      Product(6, "Linen Summer Blazer", "Klassico", 3999,
        "https://images.unsplash.com/photo-1619603364904-c0498317e145?ixlib=rb-4.0.3&ixid=M3wxMjA3fDB8MHxwaG90by1wYWdlfHx8fGVufDB8fHx8fA%3D%3D&auto=format&fit=crop&w=774&q=80",
        "men,blazer", "linen-summer-blazer"),
      Product(7, "Embellished Party Kurti", "Klassico", 3499,
        "https://images.unsplash.com/photo-1604855499405-22abad0d56c5?ixlib=rb-4.0.3&ixid=M3wxMjA3fDB8MHxwaG90by1wYWdlfHx8fGVufDB8fHx8fA%3D%3D&auto=format&fit=crop&w=774&q=80",
        "women,kurti", "embellished-party-kurti"),
      Product(8, "Classic Straight Jeans", "Klassico", 1399,
        "https://images.unsplash.com/photo-1576995853123-5a10305d93c0?ixlib=rb-4.0.3&ixid=M3wxMjA3fDB8MHxwaG90by1wYWdlfHx8fGVufDB8fHx8fA%3D%3D&auto=format&fit=crop&w=774&q=80",
        "men,jeans", "classic-straight-jeans")
    ]

  /** The products of `ps` whose `category` string contains `category`
      anywhere, in their order. */
  function ByCategory(ps: seq<Product>, category: string): (r: seq<Product>)
    ensures forall p :: p in r <==> p in ps && Includes(p.category, category)
    ensures forall p :: multiset(r)[p] == if Includes(p.category, category) then multiset(ps)[p] else 0
    ensures IsSubsequence(r, ps)
  {
    Filter(ps, (p: Product) => Includes(p.category, category))
  }

  /** `getProductsByCategory`: the catalogue products whose category contains
      `category`, in catalogue order. */
  function ProductsByCategory(category: string): (r: seq<Product>)
    ensures forall p :: p in r <==> p in Products && Includes(p.category, category)
    ensures forall p :: multiset(r)[p] == if Includes(p.category, category) then multiset(Products)[p] else 0
    ensures IsSubsequence(r, Products)
  {
    ByCategory(Products, category)
  }

  /** The first product whose slug is `slug`, if any. */
  function FindBySlug(ps: seq<Product>, slug: string): (r: Option<Product>)
    ensures r.None? <==> forall i :: 0 <= i < |ps| ==> ps[i].slug != slug
    ensures r.Some? ==> exists i :: 0 <= i < |ps| && ps[i] == r.value && ps[i].slug == slug
                          && forall j :: 0 <= j < i ==> ps[j].slug != slug
  {
    if ps == [] then None
    else if ps[0].slug == slug then Some(ps[0])
    else
      var r := FindBySlug(ps[1..], slug);
      if r.Some? then
        var i :| 0 <= i < |ps[1..]| && ps[1..][i] == r.value && ps[1..][i].slug == slug
                 && forall j :: 0 <= j < i ==> ps[1..][j].slug != slug;
        assert ps[i + 1] == r.value && forall j :: 0 <= j < i + 1 ==> ps[j].slug != slug;
        r
      else
        r
  }

  function ProductBySlug(slug: string): (r: Option<Product>)
    ensures r.Some? ==> r.value in Products && r.value.slug == slug
    ensures r.None? ==> forall p :: p in Products ==> p.slug != slug
  {
    FindBySlug(Products, slug)
  }

  /** The filter of `getRelatedProducts`: another product whose category
      contains `category`. */
  function RelatedTo(currentId: int, category: string): Product -> bool
  {
    (p: Product) => p.id != currentId && Includes(p.category, category)
  }

  /** The first four products of `ps` other than `currentId` whose category
      contains `category`, in their order. */
  function RelatedIn(ps: seq<Product>, currentId: int, category: string): (r: seq<Product>)
    ensures |r| <= 4
    ensures forall p :: p in r ==> p in ps && p.id != currentId && Includes(p.category, category)
    ensures IsSubsequence(r, ps)
    ensures |r| < 4 ==> forall p :: p in ps && p.id != currentId && Includes(p.category, category) ==> p in r
    ensures r <= Filter(ps, RelatedTo(currentId, category))
    ensures |r| == if |Filter(ps, RelatedTo(currentId, category))| < 4 then |Filter(ps, RelatedTo(currentId, category))|
                   else 4
  {
    var matching := Filter(ps, RelatedTo(currentId, category));
    SubsequencePrefix(Take(matching, 4), matching, ps);
    Take(matching, 4)
  }

  /** `getRelatedProducts` over the catalogue. */
  function RelatedProducts(currentId: int, category: string): (r: seq<Product>)
    ensures |r| <= 4
    ensures forall p :: p in r ==> p in Products && p.id != currentId && Includes(p.category, category)
    ensures IsSubsequence(r, Products)
    ensures |r| < 4 ==> forall p :: p in Products && p.id != currentId && Includes(p.category, category) ==> p in r
    ensures r <= Filter(Products, RelatedTo(currentId, category))
    ensures |r| == if |Filter(Products, RelatedTo(currentId, category))| < 4
                   then |Filter(Products, RelatedTo(currentId, category))| else 4
  {
    RelatedIn(Products, currentId, category)
  }

  /** `products.slice(0, 8)`. */
  function FeaturedProducts(): (r: seq<Product>)
    ensures r <= Products && |r| <= 8
  {
    Take(Products, 8)
  }

  lemma FeaturedIsWholeCatalogue()
    ensures FeaturedProducts() == Products
  {
  }

  /** Ids and slugs identify catalogue products. */
  lemma CatalogueKeysDistinct()
    ensures forall i, j :: 0 <= i < j < |Products| ==> Products[i].id != Products[j].id
    ensures forall i, j :: 0 <= i < j < |Products| ==> Products[i].slug != Products[j].slug
  {
  }

  /** The empty category matches every product. */
  lemma EmptyCategoryMatchesAll()
    ensures ProductsByCategory("") == Products
  {
    EmptyCategoryKeepsAll(Products);
  }

  lemma EmptyCategoryKeepsAll(ps: seq<Product>)
    ensures ByCategory(ps, "") == ps
  {
    FilterAll(ps, (p: Product) => Includes(p.category, ""));
  }

  /** Every product whose category mentions "women" is returned for "men". */
  lemma MenMatchesWomen(p: Product)
    requires p in Products && Includes(p.category, "women")
    ensures p in ProductsByCategory("men")
  {
    assert OccursAt("women", "men", 2);
    IncludesIff("women", "men");
    IncludesTrans(p.category, "women", "men");
  }

  /** When every category lacks `x` or `y`, both characters of `c`, no
      category contains `c`. */
  lemma {:induction false} MissingCharMatchesNothing(ps: seq<Product>, c: string, x: char, y: char)
    requires x in c && y in c
    requires forall i :: 0 <= i < |ps| ==> x !in ps[i].category || y !in ps[i].category
    ensures ByCategory(ps, c) == []
  {
    forall i | 0 <= i < |ps|
      ensures !Includes(ps[i].category, c)
    {
      if Includes(ps[i].category, c) {
        IncludesChars(ps[i].category, c, x);
        IncludesChars(ps[i].category, c, y);
      }
    }
    FilterNone(ps, (p: Product) => Includes(p.category, c));
  }

  /** The plural route names used by the navigation match no product: the
      tags are "kurti" and "blazer". */
  lemma PluralCategoriesMatchNothing(route: string)
    requires route == "kurtis" || route == "blazers"
    ensures ProductsByCategory(route) == []
  {
    var x := route[0];
    assert x in route && 's' in route by {
      assert route[|route| - 1] == 's';
    }
    forall i | 0 <= i < |Products|
      ensures x !in Products[i].category || 's' !in Products[i].category
    {
      CategoryLacks(i, x);
    }
    MissingCharMatchesNothing(Products, route, x, 's');
  }

  /** No catalogue category holds both `s` and `k`, or both `s` and `b`. */
  lemma CategoryLacks(i: int, x: char)
    requires 0 <= i < |Products| && (x == 'k' || x == 'b')
    ensures x !in Products[i].category || 's' !in Products[i].category
  {
    CategoryCases(i);
    var c := Products[i].category;
    if c == "women,kurti" || c == "men,blazer" {
      assert forall j :: 0 <= j < |c| ==> c[j] != 's';
    } else {
      assert forall j :: 0 <= j < |c| ==> c[j] != 'k' && c[j] != 'b';
    }
  }

  /** The four category strings of the catalogue. */
  lemma CategoryCases(i: int)
    requires 0 <= i < |Products|
    ensures i in {0, 3, 6} ==> Products[i].category == "women,kurti"
    ensures i in {1, 7} ==> Products[i].category == "men,jeans"
    ensures i in {2, 5} ==> Products[i].category == "men,blazer"
    ensures i == 4 ==> Products[i].category == "women,jeans"
  {
    if i == 0 {} else if i == 1 {} else if i == 2 {} else if i == 3 {}
    else if i == 4 {} else if i == 5 {} else if i == 6 {} else {}
  }

  /** `category.split(",")`: the comma-separated tags of a category string. */
  function Tags(category: string): (r: seq<string>)
    ensures |r| > 0
    ensures forall i :: 0 <= i < |r| ==> ',' !in r[i]
    decreases |category|
  {
    if ',' !in category then [category]
    else
      var i := IndexOf(category, ',');
      [category[..i]] + Tags(category[i + 1..])
  }

  lemma TagsOfPair(a: string, b: string)
    requires ',' !in a && ',' !in b
    ensures Tags(a + "," + b) == [a, b]
  {
    var s := a + "," + b;
    assert s[|a|] == ',';
    forall j | 0 <= j < |a|
      ensures s[j] == a[j]
    {
    }
    var i := IndexOf(s, ',');
    assert i == |a|;
    assert s[..|a|] == a;
    assert s[|a| + 1..] == b;
  }

  /** A product carries `tag` when `tag` is one of its comma-separated tags. */
  predicate HasTag(p: Product, tag: string)
  {
    tag in Tags(p.category)
  }

  /** Category matching on whole tags rather than on a substring of the
      comma-joined string. */
  function ProductsByTag(tag: string): (r: seq<Product>)
    ensures forall p :: p in r <==> p in Products && HasTag(p, tag)
    ensures forall p :: multiset(r)[p] == if HasTag(p, tag) then multiset(Products)[p] else 0
    ensures IsSubsequence(r, Products)
  {
    Filter(Products, (p: Product) => HasTag(p, tag))
  }

  /** The audience tag ("women" or "men") of the `i`-th catalogue product. */
  function AudienceTag(i: int): string
  {
    if i in {0, 3, 4, 6} then "women" else "men"
  }

  /** The garment tag ("kurti", "jeans" or "blazer") of the `i`-th product. */
  function GarmentTag(i: int): string
  {
    if i in {0, 3, 6} then "kurti" else if i in {2, 5} then "blazer" else "jeans"
  }

  /** Every catalogue category is an audience tag followed by a garment tag. */
  lemma CatalogueTags(i: int)
    requires 0 <= i < |Products|
    ensures Products[i].category == AudienceTag(i) + "," + GarmentTag(i)
    ensures Tags(Products[i].category) == [AudienceTag(i), GarmentTag(i)]
  {
    CategoryCases(i);
    var a, g := AudienceTag(i), GarmentTag(i);
    if i in {0, 3, 6} {
      assert a + "," + g == "women,kurti";
    } else if i in {1, 7} {
      assert a + "," + g == "men,jeans";
    } else if i in {2, 5} {
      assert a + "," + g == "men,blazer";
    } else {
      assert a + "," + g == "women,jeans";
    }
    TagsOfPair(a, g);
  }

  /** Each catalogue category contains both of its tags. */
  lemma CatalogueIncludesTags(i: int)
    requires 0 <= i < |Products|
    ensures Includes(Products[i].category, AudienceTag(i))
    ensures Includes(Products[i].category, GarmentTag(i))
  {
    CatalogueTags(i);
    PairIncludesBoth(AudienceTag(i), GarmentTag(i));
  }

  /** A comma-joined pair contains both of its parts. */
  lemma PairIncludesBoth(a: string, g: string)
    ensures Includes(a + "," + g, a) && Includes(a + "," + g, g)
  {
    var c := a + "," + g;
    assert c[0..|a|] == a;
    assert OccursAt(c, a, 0);
    assert c[|a| + 1..|a| + 1 + |g|] == g;
    assert OccursAt(c, g, |a| + 1);
    IncludesIff(c, a);
    IncludesIff(c, g);
  }

  /** With whole-tag matching, no catalogue product selected by "men", that
      is, no member of `ProductsByTag("men")`, is tagged "women". */
  lemma MenTagExcludesWomen(p: Product)
    requires p in Products && HasTag(p, "men")
    ensures !HasTag(p, "women")
  {
    var i :| 0 <= i < |Products| && Products[i] == p;
    CatalogueTags(i);
    MenPairNotWomen(AudienceTag(i), GarmentTag(i));
  }

  lemma MenPairNotWomen(audience: string, garment: string)
    requires audience == "women" || audience == "men"
    requires garment == "kurti" || garment == "jeans" || garment == "blazer"
    requires "men" in [audience, garment]
    ensures "women" !in [audience, garment]
  {
    assert garment[0] != 'm' && garment[0] != 'w';
    assert audience == "men";
  }

  /** The first catalogue product, tagged "women" and "kurti", is listed by
      `getProductsByCategory("men")`. */
  lemma WomensKurtiListedUnderMen()
    ensures Products[0] in ProductsByCategory("men") && HasTag(Products[0], "women")
  {
    assert OccursAt(Products[0].category, "women", 0);
    IncludesIff(Products[0].category, "women");
    MenMatchesWomen(Products[0]);
    CatalogueTags(0);
  }
}
