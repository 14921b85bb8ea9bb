/** The home page's featured-products grid: the All / Women / Men tab filter
    over the products it is given. */
module FeaturedTabs {
  import opened Seqs
  import opened Catalog

  datatype Tab = All | Women | Men

  /** The women tab's test on a product's comma-joined category. */
  predicate OnWomenTab(p: Product)
  {
    Includes(p.category, "women") || Includes(p.category, "kurti")
  }

  /** The men tab's test. Being a substring test, "men" also matches "women". */
  predicate OnMenTab(p: Product)
  {
    Includes(p.category, "men") || Includes(p.category, "jeans") || Includes(p.category, "blazer")
  }

  /** The products shown under `tab`. */
  function VisibleProducts(tab: Tab, products: seq<Product>): (r: seq<Product>)
    ensures tab == All ==> r == products
    ensures tab == Women ==> forall p :: p in r <==> p in products && OnWomenTab(p)
    ensures tab == Men ==> forall p :: p in r <==> p in products && OnMenTab(p)
    ensures tab == Women ==> forall p :: multiset(r)[p] == if OnWomenTab(p) then multiset(products)[p] else 0
    ensures tab == Men ==> forall p :: multiset(r)[p] == if OnMenTab(p) then multiset(products)[p] else 0
    ensures IsSubsequence(r, products)
  {
    match tab
    case All => SubsequenceRefl(products); products
    case Women => Filter(products, OnWomenTab)
    case Men => Filter(products, OnMenTab)
  }

  /** Every product whose category mentions "women" is shown on the men tab,
      and those products keep their relative order there. */
  lemma WomenTaggedShownOnMenTab(products: seq<Product>)
    ensures IsSubsequence(Filter(products, (p: Product) => Includes(p.category, "women")),
                          VisibleProducts(Men, products))
  {
    assert OccursAt("women", "men", 2);
    IncludesIff("women", "men");
    forall p: Product | Includes(p.category, "women")
      ensures OnMenTab(p)
    {
      IncludesTrans(p.category, "women", "men");
    }
    FilterMonotone(products, (p: Product) => Includes(p.category, "women"), OnMenTab);
  }

  /** Every catalogue product passes the men tab's test, so the men tab over
      the catalogue shows all eight products. */
  lemma MenTabShowsWholeCatalogue()
    ensures forall p :: p in Products ==> OnMenTab(p)
  {
    assert OccursAt("women", "men", 2);
    IncludesIff("women", "men");
    forall p | p in Products
      ensures OnMenTab(p)
    {
      var i :| 0 <= i < |Products| && Products[i] == p;
      CatalogueTags(i);
      var audience := AudienceTag(i);
      assert Includes(p.category, audience) by {
        assert audience <= audience + "," + GarmentTag(i);
      }
      if audience == "women" {
        IncludesTrans(p.category, "women", "men");
      }
    }
  }
}
