/** The product list screen: the `products` state cell that `fetchProducts`
    and `deleteProduct` replace, and the list shown for a search term. */
module ProductList {
  import opened Http
  import opened Strings
  import opened Lists

  /** A product as the list receives it from the backend. */
  datatype Product = Product(id: int, name: string, description: string, price: Option<real>)

  /** `searchTerm?.toLowerCase() || ''` */
  function Needle(searchTerm: Option<string>): string
  {
    OrElse(if searchTerm.Some? then Some(ToLowerCase(searchTerm.value)) else None, "")
  }

  /** `product.name.toLowerCase().includes(needle)` */
  predicate NameMatches(p: Product, needle: string)
  {
    Includes(ToLowerCase(p.name), needle)
  }

  /** `filteredProducts` */
  function FilteredProducts(products: seq<Product>, searchTerm: Option<string>): seq<Product>
  {
    Filter(products, (p: Product) => NameMatches(p, Needle(searchTerm)))
  }

  /** `products.filter(product => product.id !== id)` */
  function WithoutId(products: seq<Product>, id: int): seq<Product>
  {
    Filter(products, (p: Product) => p.id != id)
  }

  /** The filtered list is exactly the products whose lower-cased name
      contains the lower-cased search term: each such product as often as it
      occurs, no other product, in the original order. */
  lemma FilteredIsMatchingSubsequence(products: seq<Product>, searchTerm: Option<string>, p: Product)
    ensures p in FilteredProducts(products, searchTerm)
            <==> p in products && Includes(ToLowerCase(p.name), Needle(searchTerm))
    ensures multiset(FilteredProducts(products, searchTerm))[p]
            == if Includes(ToLowerCase(p.name), Needle(searchTerm)) then multiset(products)[p] else 0
    ensures Subsequence(FilteredProducts(products, searchTerm), products)
  {
    var keep := (q: Product) => NameMatches(q, Needle(searchTerm));
    FilterMembership(products, keep, p);
    FilterMultiplicity(products, keep, p);
    FilterSubsequence(products, keep);
  }

  /** An undefined or empty search term keeps every product. */
  lemma NoSearchTermKeepsAll(products: seq<Product>, searchTerm: Option<string>)
    requires searchTerm == None || searchTerm == Some("")
    ensures FilteredProducts(products, searchTerm) == products
  {
    assert Needle(searchTerm) == "";
    forall i | 0 <= i < |products|
      ensures NameMatches(products[i], "")
    {
      IncludesEmpty(ToLowerCase(products[i].name));
    }
    FilterKeepsAll(products, p => NameMatches(p, Needle(searchTerm)));
  }

  /** The search ignores the case of the term. */
  lemma SearchIgnoresTermCase(products: seq<Product>, term: string)
    ensures FilteredProducts(products, Some(term)) == FilteredProducts(products, Some(ToLowerCase(term)))
  {
    ToLowerCaseIdempotent(term);
    assert Needle(Some(term)) == Needle(Some(ToLowerCase(term)));
  }

  /** Filtering by a product's own (lower-cased) name keeps that product. */
  lemma OwnNameMatches(p: Product)
    ensures NameMatches(p, Needle(Some(p.name)))
  {
    var n := ToLowerCase(p.name);
    ToLowerCaseIdempotent(p.name);
    if n != "" {
      assert Needle(Some(p.name)) == n;
      assert n[0..|n|] == n;
      assert OccursAt(n, n, 0);
    } else {
      IncludesEmpty(n);
    }
  }

  /** After removing `id`: no product with that id is left, every other one
      keeps its multiplicity, and the order is the old order. */
  lemma RemovalKeepsOthersInOrder(products: seq<Product>, id: int, p: Product)
    ensures forall i :: 0 <= i < |WithoutId(products, id)| ==> WithoutId(products, id)[i].id != id
    ensures p.id != id ==> multiset(WithoutId(products, id))[p] == multiset(products)[p]
    ensures p.id != id ==> (p in WithoutId(products, id) <==> p in products)
    ensures Subsequence(WithoutId(products, id), products)
  {
    var keep := (q: Product) => q.id != id;
    FilterMembership(products, keep, p);
    FilterMultiplicity(products, keep, p);
    FilterSubsequence(products, keep);
  }

  /** Removing an id that no product has changes nothing, and removing the
      same id twice is removing it once. */
  lemma RemovalOfAbsentIdIsNoOp(products: seq<Product>, id: int)
    ensures (forall i :: 0 <= i < |products| ==> products[i].id != id) ==> WithoutId(products, id) == products
    ensures WithoutId(WithoutId(products, id), id) == WithoutId(products, id)
  {
    var keep := (q: Product) => q.id != id;
    if forall i :: 0 <= i < |products| ==> products[i].id != id {
      FilterKeepsAll(products, keep);
    }
    FilterIdempotent(products, keep);
  }

  /** Removal from a concatenation removes from each part: products before
      the deleted one stay before, products after it stay after. */
  lemma RemovalSplits(before: seq<Product>, after: seq<Product>, id: int)
    ensures WithoutId(before + after, id) == WithoutId(before, id) + WithoutId(after, id)
  {
    FilterConcat(before, after, (q: Product) => q.id != id);
  }

  /** The component's state. */
  class ProductListView {
    var products: seq<Product>

    /** `useState([])` */
    constructor ()
      ensures products == []
    {
      products := [];
    }

    /** `fetchProducts()`: a response replaces the list with its data; an
        error is only logged. */
    method FetchProducts(reply: Result<seq<Product>>)
      modifies this
      ensures products == if reply.Ok? then reply.value else old(products)
    {
      if reply.Ok? {
        products := reply.value;
      }
    }

    /** `deleteProduct(id)`: once the backend confirms, the list loses every
        product with that id; an error is only logged. */
    method DeleteProduct(id: int, reply: Result<Json>)
      modifies this
      ensures products == if reply.Ok? then WithoutId(old(products), id) else old(products)
    {
      if reply.Ok? {
        products := WithoutId(products, id);
      }
    }

    /** `filteredProducts` for the current state. */
    function Filtered(searchTerm: Option<string>): seq<Product>
      reads this
    {
      FilteredProducts(products, searchTerm)
    }
  }
}
