/** The product catalogue screen: its search filter and the form dialog's state. */
module Products {
  import opened Wrappers
  import opened Records
  import Text
  import Lists
  import Pdv

  /** The catalogue search: the lower-cased name or category contains the lower-cased term,
      or the barcode (when there is one) contains the term as typed. */
  predicate MatchesProduct(p: Product, term: string)
  {
    Text.Contains(Text.Lower(p.name), Text.Lower(term))
    || Text.Contains(Text.Lower(p.category), Text.Lower(term))
    || (p.barcode.Some? && Text.Contains(p.barcode.value, term))
  }

  /** `products.filter(...)` of the catalogue screen (and of the product selector). */
  function FilteredProducts(products: seq<Product>, term: string): seq<Product>
  {
    Lists.Filter(products, (p: Product) => MatchesProduct(p, term))
  }

  /** A product is listed iff it matches, and the listing keeps the catalogue order. */
  lemma FilteredProductsSpec(products: seq<Product>, term: string, p: Product)
    ensures p in FilteredProducts(products, term) <==> p in products && MatchesProduct(p, term)
    ensures Lists.IsSubsequence(FilteredProducts(products, term), products)
  {
    Lists.FilterMembership(products, (q: Product) => MatchesProduct(q, term), p);
    Lists.FilterIsSubsequence(products, (q: Product) => MatchesProduct(q, term));
  }

  /** With an empty search box every product is listed, in order. */
  lemma EmptyTermListsAll(products: seq<Product>)
    ensures FilteredProducts(products, "") == products
  {
    forall i | 0 <= i < |products| ensures MatchesProduct(products[i], "") {
      Text.ContainsEmpty(Text.Lower(products[i].name));
    }
    Lists.FilterAllPass(products, (q: Product) => MatchesProduct(q, ""));
  }

  /** The catalogue search also looks at the category, so whatever the sale screen's search
      finds for a term, the catalogue search finds too. */
  lemma SaleSearchWithinCatalogueSearch(products: seq<Product>, term: string, p: Product)
    requires p in Pdv.FilteredProducts(products, term)
    ensures p in FilteredProducts(products, term)
  {
    Pdv.FilteredProductsSpec(products, term, p);
    FilteredProductsSpec(products, term, p);
  }

  class ProductsScreen {
    var isModalOpen: bool
    var selectedProduct: Option<Product>
    var searchTerm: string

    constructor ()
      ensures !isModalOpen && selectedProduct == None && searchTerm == ""
    {
      isModalOpen := false;
      selectedProduct := None;
      searchTerm := "";
    }

    /** `openModal(product = null)`: `None` opens the form for a new product. */
    method OpenModal(product: Option<Product>)
      modifies this`isModalOpen, this`selectedProduct
      ensures isModalOpen && selectedProduct == product
    {
      selectedProduct := product;
      isModalOpen := true;
    }

    /** `closeModal`: forgets the product being edited. */
    method CloseModal()
      modifies this`isModalOpen, this`selectedProduct
      ensures !isModalOpen && selectedProduct == None
    {
      selectedProduct := None;
      isModalOpen := false;
    }

    method SetSearchTerm(term: string)
      modifies this`searchTerm
      ensures searchTerm == term
    {
      searchTerm := term;
    }

    /** The products the screen lists for its current search term. */
    function Listed(products: seq<Product>): (r: seq<Product>)
      reads this`searchTerm
      ensures forall p :: p in r <==> p in products && MatchesProduct(p, searchTerm)
    {
      forall p ensures p in FilteredProducts(products, searchTerm) <==> p in products && MatchesProduct(p, searchTerm) {
        FilteredProductsSpec(products, searchTerm, p);
      }
      FilteredProducts(products, searchTerm)
    }
  }
}
