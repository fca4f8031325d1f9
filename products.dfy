/**
 * The catalogue page (`src/pages/Products.tsx`): the memoised
 * `filteredProducts` pipeline over the catalogue or the search results, and
 * the page state that the search box, the filter sidebar and the
 * "Clear All Filters" buttons update.
 */
module Products {
  import opened Seqs
  import opened Types
  import opened ProductFilters

  /** The inputs of `filteredProducts`. */
  datatype Filters = Filters(
    query: string,
    categories: seq<Category>,
    minRating: real,
    tags: seq<ProductTag>,
    diet: DietFilter)

  /** The page's initial filters with no URL parameters, and the state `clearFilters` returns to. */
  const NoFilters: Filters := Filters("", [], 0.0, [], All)

  /** `selectedTags.some(tag => p.tags.includes(tag))`. */
  predicate SharesTag(tags: seq<ProductTag>, p: Product)
  {
    exists i :: 0 <= i < |tags| && tags[i] in p.tags
  }

  predicate MatchesDiet(diet: DietFilter, p: Product)
  {
    match diet
    case All => true
    case Veg => p.isVeg
    case NonVeg => !p.isVeg
  }

  /** `p` passes every filter that is switched on. */
  predicate Keep(f: Filters, p: Product)
  {
    && (|f.categories| > 0 ==> p.category in f.categories)
    && (f.minRating > 0.0 ==> p.rating >= f.minRating)
    && (|f.tags| > 0 ==> SharesTag(f.tags, p))
    && MatchesDiet(f.diet, p)
  }

  /** The list the filters start from: the search results for a non-empty query, else the whole catalogue. */
  function BaseList(catalogue: seq<Product>, search: string -> seq<Product>, query: string): seq<Product>
  {
    if query != "" then search(query) else catalogue
  }

  /** `filteredProducts`, stage by stage: each active filter narrows the previous result. */
  function FilteredProducts(catalogue: seq<Product>, search: string -> seq<Product>, f: Filters): seq<Product>
  {
    var base := BaseList(catalogue, search, f.query);
    var byCategory := if |f.categories| > 0 then Filter(base, (p: Product) => p.category in f.categories) else base;
    var byRating := if f.minRating > 0.0 then Filter(byCategory, (p: Product) => p.rating >= f.minRating) else byCategory;
    var byTags := if |f.tags| > 0 then Filter(byRating, (p: Product) => SharesTag(f.tags, p)) else byRating;
    if f.diet == Veg then Filter(byTags, (p: Product) => p.isVeg)
    else if f.diet == NonVeg then Filter(byTags, (p: Product) => !p.isVeg)
    else byTags
  }

  /** However many filters are on, the pipeline is one filter of the base list by their conjunction. */
  lemma FilteredIsOneFilter(catalogue: seq<Product>, search: string -> seq<Product>, f: Filters)
    ensures FilteredProducts(catalogue, search, f) == Filter(BaseList(catalogue, search, f.query), (p: Product) => Keep(f, p))
  {
    var base := BaseList(catalogue, search, f.query);
    var k1: Product -> bool := (p: Product) => |f.categories| > 0 ==> p.category in f.categories;
    var k2: Product -> bool := (p: Product) => k1(p) && (f.minRating > 0.0 ==> p.rating >= f.minRating);
    var k3: Product -> bool := (p: Product) => k2(p) && (|f.tags| > 0 ==> SharesTag(f.tags, p));
    var keep: Product -> bool := (p: Product) => Keep(f, p);

    var byCategory := if |f.categories| > 0 then Filter(base, (p: Product) => p.category in f.categories) else base;
    if |f.categories| > 0 {
      FilterExtensional(base, (p: Product) => p.category in f.categories, k1);
    } else {
      FilterAll(base, k1);
    }
    var byRating := if f.minRating > 0.0 then Filter(byCategory, (p: Product) => p.rating >= f.minRating) else byCategory;
    if f.minRating > 0.0 {
      FilterFilter(base, k1, (p: Product) => p.rating >= f.minRating, k2);
    } else {
      FilterExtensional(base, k1, k2);
    }
    var byTags := if |f.tags| > 0 then Filter(byRating, (p: Product) => SharesTag(f.tags, p)) else byRating;
    if |f.tags| > 0 {
      FilterFilter(base, k2, (p: Product) => SharesTag(f.tags, p), k3);
    } else {
      FilterExtensional(base, k2, k3);
    }
    if f.diet == Veg {
      FilterFilter(base, k3, (p: Product) => p.isVeg, keep);
    } else if f.diet == NonVeg {
      FilterFilter(base, k3, (p: Product) => !p.isVeg, keep);
    } else {
      FilterExtensional(base, k3, keep);
    }
  }

  /**
   * The products shown keep the base list's order, and a product is shown
   * exactly when it is in the base list and passes every active filter. With
   * no query and no active filter the whole catalogue is shown, in order.
   */
  lemma FilteredProperties(catalogue: seq<Product>, search: string -> seq<Product>, f: Filters)
    ensures var r, base := FilteredProducts(catalogue, search, f), BaseList(catalogue, search, f.query);
      && IsSubsequence(r, base)
      && (forall p :: p in r <==> p in base && Keep(f, p))
    ensures f.query == "" && !HasActiveFilters(f.categories, f.tags, f.minRating, f.diet) ==>
      FilteredProducts(catalogue, search, f) == catalogue
  {
    var base := BaseList(catalogue, search, f.query);
    FilteredIsOneFilter(catalogue, search, f);
    FilterIsSubsequence(base, (p: Product) => Keep(f, p));
  }

  /** Some string of length `n`. */
  function Padding(n: nat): (s: string)
    ensures |s| == n
  {
    if n == 0 then "" else "x" + Padding(n - 1)
  }

  /** A category name longer than every selected one. */
  function UnselectedCategory(categories: seq<Category>): (c: Category)
    ensures c !in categories
  {
    Padding(LongestLength(categories) + 1)
  }

  function LongestLength(names: seq<string>): (n: nat)
    ensures forall i :: 0 <= i < |names| ==> |names[i]| <= n
  {
    if |names| == 0 then 0
    else
      var rest := LongestLength(names[1..]);
      if |names[0]| > rest then |names[0]| else rest
  }

  /**
   * `hasActiveFilters` holds exactly when the filters can reject some
   * product: switched-off filters keep everything, and each switched-on one
   * rejects an unrated, untagged product of an unselected category and of the
   * other diet.
   */
  lemma HasActiveFiltersIffSomeRejected(f: Filters)
    ensures HasActiveFilters(f.categories, f.tags, f.minRating, f.diet) <==> exists p :: !Keep(f, p)
  {
    if HasActiveFilters(f.categories, f.tags, f.minRating, f.diet) {
      var p := Product("", "", "", "", [], 0.0, 0, "", 0.0, [], UnselectedCategory(f.categories), [], [], f.diet != Veg);
      assert !SharesTag(f.tags, p);
      assert !Keep(f, p);
    }
  }

  class ProductsPage {
    var searchQuery: string
    var selectedCategories: seq<Category>
    var selectedTags: seq<ProductTag>
    var minRating: real
    var dietFilter: DietFilter
    /** The query parameters of the page URL. */
    var searchParams: map<string, string>
    const catalogue: seq<Product>
    /** `searchProducts`. */
    const search: string -> seq<Product>

    function CurrentFilters(): Filters
      reads this
    {
      Filters(searchQuery, selectedCategories, minRating, selectedTags, dietFilter)
    }

    /** The products on display. */
    function Shown(): seq<Product>
      reads this
    {
      FilteredProducts(catalogue, search, CurrentFilters())
    }

    /**
     * The page as mounted: the query comes from the `search` parameter, a
     * non-empty `category` parameter preselects that one category, and the
     * mount effect rewrites the URL to carry only the query when there is one.
     */
    constructor(catalogue: seq<Product>, search: string -> seq<Product>, params: map<string, string>)
      ensures this.catalogue == catalogue && this.search == search
      ensures searchQuery == if "search" in params then params["search"] else ""
      ensures selectedCategories == if "category" in params && params["category"] != "" then [params["category"]] else []
      ensures selectedTags == [] && minRating == 0.0 && dietFilter == All
      ensures searchParams == if searchQuery != "" then map["search" := searchQuery] else params
    {
      this.catalogue := catalogue;
      this.search := search;
      searchQuery := if "search" in params then params["search"] else "";
      selectedCategories := if "category" in params && params["category"] != "" then [params["category"]] else [];
      selectedTags := [];
      minRating := 0.0;
      dietFilter := All;
      searchParams := params;
      new;
      if searchQuery != "" {
        searchParams := map["search" := searchQuery];
      }
    }

    /** `handleSearch(query)`: stores the query and mirrors it in the URL, or clears the URL for an empty one. */
    method HandleSearch(query: string)
      modifies this`searchQuery, this`searchParams
      ensures searchQuery == query
      ensures searchParams == if query != "" then map["search" := query] else map[]
    {
      searchQuery := query;
      if query != "" {
        searchParams := map["search" := query];
      } else {
        searchParams := map[];
      }
    }

    /** `clearFilters`: every filter and the query are reset, the URL is cleared, and the whole catalogue shows. */
    method ClearFilters()
      modifies this`selectedCategories, this`selectedTags, this`minRating, this`dietFilter
      modifies this`searchQuery, this`searchParams
      ensures CurrentFilters() == NoFilters && searchParams == map[]
      ensures Shown() == catalogue
    {
      selectedCategories := [];
      selectedTags := [];
      minRating := 0.0;
      dietFilter := All;
      searchQuery := "";
      searchParams := map[];
      FilteredProperties(catalogue, search, CurrentFilters());
    }

    /** A category check box: `toggleCategory` passes the toggled selection to the page. */
    method ToggleCategory(category: Category)
      modifies this`selectedCategories
      ensures selectedCategories == Toggle(old(selectedCategories), category)
    {
      selectedCategories := Toggle(selectedCategories, category);
    }

    /** A tag button: `toggleTag` passes the toggled selection to the page. */
    method ToggleTag(tag: ProductTag)
      modifies this`selectedTags
      ensures selectedTags == Toggle(old(selectedTags), tag)
    {
      selectedTags := Toggle(selectedTags, tag);
    }

    /** A minimum-rating button. */
    method SetMinRating(rating: real)
      modifies this`minRating
      ensures minRating == rating
    {
      minRating := rating;
    }

    /** A diet button. */
    method SetDietFilter(diet: DietFilter)
      modifies this`dietFilter
      ensures dietFilter == diet
    {
      dietFilter := diet;
    }
  }
}
