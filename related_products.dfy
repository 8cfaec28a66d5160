/** "You may also like": up to four other products of the same category. */
module RelatedProducts {
  import opened Wrappers
  import opened Types
  import opened Arrays

  const CategoryEndpoint: string := "https://fakestoreapi.com/products/category/"

  /** The request URL: the category, encoded; `encode` stands for `encodeURIComponent`. */
  function RelatedUrl(category: string, encode: string -> string): (url: string)
    ensures CategoryEndpoint <= url && url[|CategoryEndpoint|..] == encode(category)
  {
    CategoryEndpoint + encode(category)
  }

  function IsOther(excludeId: int): Product -> bool {
    (p: Product) => p.id != excludeId
  }

  /** `getRelatedProducts`: the fetched products (None for a non-ok
      response) without the current one, first four only. */
  function GetRelatedProducts(response: Option<seq<Product>>, excludeId: int): (r: seq<Product>)
    ensures response.None? ==> r == []
    ensures |r| <= 4
    ensures forall j :: 0 <= j < |r| ==> r[j].id != excludeId
    ensures response.Some? ==> forall j :: 0 <= j < |r| ==> r[j] in response.value
    ensures response.Some? ==>
              var others := Filter(response.value, IsOther(excludeId));
              |r| == (if |others| < 4 then |others| else 4) && r == others[..|r|]
  {
    if response.None? then []
    else
      var others := Filter(response.value, IsOther(excludeId));
      var r := Take(others, 4);
      assert forall j :: 0 <= j < |r| ==> r[j] == others[j];
      r
  }

  /** The result keeps the fetched order: it is a subsequence of the response. */
  lemma RelatedIsSubsequence(products: seq<Product>, excludeId: int)
    ensures IsSubsequence(GetRelatedProducts(Some(products), excludeId), products)
  {
    var others := Filter(products, IsOther(excludeId));
    FilterIsSubsequence(products, IsOther(excludeId));
    var r := Take(others, 4);
    assert r == others[..|r|];
    SubsequencePrefix(others, products, |r|);
  }

  /** Nothing other than the current product is lost while there is room:
      with at most four others, all of them are shown. */
  lemma RelatedKeepsAllWhenFew(products: seq<Product>, excludeId: int)
    requires |Filter(products, IsOther(excludeId))| <= 4
    ensures GetRelatedProducts(Some(products), excludeId) == Filter(products, IsOther(excludeId))
  {
  }

  /** The section renders nothing when the list is empty. */
  predicate RendersSection(products: seq<Product>) {
    products != []
  }

  lemma FailedFetchRendersNothing(excludeId: int)
    ensures !RendersSection(GetRelatedProducts(None, excludeId))
  {
  }
}
