/** The product picker of the sale screen: the catalogue search and its empty message. */
module Selector {
  import opened Records
  import Products
  import Lists

  /** The picker lists what the catalogue search lists. */
  function Listed(products: seq<Product>, term: string): seq<Product>
  {
    Products.FilteredProducts(products, term)
  }

  /** "Nenhum produto encontrado" is shown when the listing is empty. */
  predicate NoProductFound(products: seq<Product>, term: string)
  {
    |Listed(products, term)| == 0
  }

  /** The message appears exactly when no product of the catalogue matches the term. */
  lemma NoProductFoundSpec(products: seq<Product>, term: string)
    ensures NoProductFound(products, term)
        <==> forall i :: 0 <= i < |products| ==> !Products.MatchesProduct(products[i], term)
  {
    Lists.FilterEmpty(products, (p: Product) => Products.MatchesProduct(p, term));
  }

  /** With the search box empty the message appears only for an empty catalogue. */
  lemma EmptyTermMessage(products: seq<Product>)
    ensures NoProductFound(products, "") <==> products == []
  {
    Products.EmptyTermListsAll(products);
  }
}
