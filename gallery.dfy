/** The gallery of app/gallery/page.tsx: a fixed catalog of six designs, the
    name search and category filter over it, and the `ADD_ITEM` action its
    "Add to Cart" button dispatches. */
module Gallery {
  import opened Common
  import opened Text
  import PhoneModelSelector
  import opened CartActions

  datatype CatalogDesign = CatalogDesign(
    id: string,
    name: string,
    category: string,
    price: int,
    image: string,
    likes: int)

  /** The ids of the category buttons; 'all' shows every category. */
  const Categories: seq<string> := ["all", "abstract", "nature", "geometric", "minimalist", "vintage"]

  const Designs: seq<CatalogDesign> := [
    CatalogDesign("1", "Sunset Mountains", "nature", 299, "/sunset.png", 234),
    CatalogDesign("2", "Abstract Waves", "abstract", 349, "/abstract.png", 189),
    CatalogDesign("3", "Geometric Pattern", "geometric", 279, "/geomatric.png", 156),
    CatalogDesign("4", "Minimal Lines", "minimalist", 249, "/minimalline.png", 298),
    CatalogDesign("5", "Vintage Floral", "vintage", 329, "/Vintage Floral.png", 167),
    CatalogDesign("6", "Ocean Depths", "nature", 319, "/Ocean Depth.png", 203)]

  /** Catalog ids are pairwise distinct and every price is positive. */
  lemma CatalogWellFormed()
    ensures forall i, j :: 0 <= i < j < |Designs| ==> Designs[i].id != Designs[j].id
    ensures forall i :: 0 <= i < |Designs| ==> Designs[i].price > 0
  {
    forall i, j | 0 <= i < j < |Designs|
      ensures Designs[i].id != Designs[j].id
    {
      assert Designs[i].id == [(i + 1) as char + '0'];
      assert Designs[j].id == [(j + 1) as char + '0'];
    }
  }

  predicate MatchesSearch(design: CatalogDesign, searchTerm: string) {
    Contains(Lower(design.name), Lower(searchTerm))
  }

  predicate MatchesCategory(design: CatalogDesign, selectedCategory: string) {
    selectedCategory == "all" || design.category == selectedCategory
  }

  /** `filteredDesigns`: the catalog designs whose name contains the search
      term ignoring case and whose category is the selected one ('all'
      accepting any), in catalog order. */
  function FilteredDesigns(searchTerm: string, selectedCategory: string): (r: seq<CatalogDesign>)
    ensures forall d :: d in r <==>
      d in Designs && MatchesSearch(d, searchTerm) && MatchesCategory(d, selectedCategory)
    ensures IsSubsequence(r, Designs)
  {
    var p := (d: CatalogDesign) => MatchesSearch(d, searchTerm) && MatchesCategory(d, selectedCategory);
    FilterIsSubsequence(Designs, p);
    Filter(Designs, p)
  }

  /** An empty search under 'all' lists the whole catalog, in order. */
  lemma EmptySearchListsCatalog()
    ensures FilteredDesigns("", "all") == Designs
  {
    forall i | 0 <= i < |Designs|
      ensures MatchesSearch(Designs[i], "")
    {
      ContainsEmpty(Lower(Designs[i].name));
    }
    FilterAll(Designs, (d: CatalogDesign) => MatchesSearch(d, "") && MatchesCategory(d, "all"));
  }

  /** With an empty search, every category button lists at least one design. */
  lemma EveryCategoryHasDesigns(category: string)
    requires category in Categories
    ensures |FilteredDesigns("", category)| > 0
  {
    var i :| 0 <= i < |Categories| && Categories[i] == category;
    var k := if i == 0 then 0 else if i == 1 then 1 else if i == 2 then 0 else i - 1;
    assert MatchesCategory(Designs[k], category) by {
      if i == 0 { assert category == "all"; }
      else if i == 1 { assert Designs[1].category == "abstract" == category; }
      else if i == 2 { assert Designs[0].category == "nature" == category; }
      else if i == 3 { assert Designs[2].category == "geometric" == category; }
      else if i == 4 { assert Designs[3].category == "minimalist" == category; }
      else { assert Designs[4].category == "vintage" == category; }
    }
    EmptySearchListsCategory(Designs[k], category);
  }

  /** With an empty search a catalog design is listed under any category it matches. */
  lemma EmptySearchListsCategory(d: CatalogDesign, category: string)
    requires d in Designs && MatchesCategory(d, category)
    ensures d in FilteredDesigns("", category)
  {
    ContainsEmpty(Lower(d.name));
  }

  /** The empty-result message is shown exactly when no catalog design
      passes both the search and the category. */
  function NoDesignsFound(searchTerm: string, selectedCategory: string): (shown: bool)
    ensures shown <==>
      forall i :: 0 <= i < |Designs| ==>
        !(MatchesSearch(Designs[i], searchTerm) && MatchesCategory(Designs[i], selectedCategory))
  {
    var r := FilteredDesigns(searchTerm, selectedCategory);
    if |r| == 0 then true else assert r[0] in r; false
  }

  /** The phone model every gallery item is added with. */
  const UniversalModel: PhoneModelSelector.PhoneModel :=
    PhoneModelSelector.PhoneModel("universal", "Universal", "/placeholder.svg", [],
      Some("universal"), Some("universal"), Some("Universal"), Some("standard"))

  /** `addToCart(design)`: the `ADD_ITEM` action carrying the design's id,
      name, price and image with the universal phone model, and its toast. */
  function AddToCart(design: CatalogDesign): (r: (Action, string))
    ensures r.0.AddItem?
    ensures r.0.item.id == design.id && r.0.item.name == design.name
    ensures r.0.item.price == design.price && r.0.item.image == design.image
    ensures r.0.item.phoneModel == UniversalModel
    ensures r.0.item.phoneModel.caseType == Some("standard") && r.0.item.phoneModel.cases == []
    ensures r.1 == "Added to cart!"
  {
    (AddItem(ItemPayload(design.id, design.name, design.price, design.image, UniversalModel)), "Added to cart!")
  }

  /** Two different catalog designs are added under different ids and with
      positive prices, so the store can tell their lines apart. */
  lemma AddToCartDistinguishesDesigns(i: int, j: int)
    requires 0 <= i < |Designs| && 0 <= j < |Designs| && i != j
    ensures AddToCart(Designs[i]).0.item.id != AddToCart(Designs[j]).0.item.id
    ensures AddToCart(Designs[i]).0.item.price > 0
  {
    CatalogWellFormed();
    if i > j {
      assert Designs[j].id != Designs[i].id;
    }
  }
}
