/**
 * The "Related Products" strip of the product page: up to four other
 * products of exactly the same category, in catalog order, nothing at all when
 * there are none, and the "View All" link's category slug.
 */
module RelatedProducts {
  import opened Wrappers
  import opened Text
  import opened Seqs
  import opened Catalog
  import Pagination
  import opened Numbers

  /** The filter the strip applies: another product of the same category (case-sensitive). */
  predicate IsRelated(p: Product, currentProductId: string, category: string) {
    p.id != currentProductId && p.category == category
  }

  /** `catalog.filter(p => p.id !== currentProductId && p.category === category).slice(0, 4)` */
  function Related(catalog: seq<Product>, currentProductId: string, category: string): (r: seq<Product>)
    ensures |r| <= 4
  {
    Pagination.Slice(Filter(catalog, (p: Product) => IsRelated(p, currentProductId, category)), 0, 4)
  }

  /**
   * The strip holds the first matches in catalog order: at most four, exactly
   * four when there are that many, never the current product, and only products
   * of exactly the given category.
   */
  lemma RelatedCorrect(catalog: seq<Product>, currentProductId: string, category: string)
    ensures var all := Filter(catalog, (p: Product) => IsRelated(p, currentProductId, category));
      Related(catalog, currentProductId, category) == all[..Min(4, |all|)]
    ensures |Related(catalog, currentProductId, category)| <= 4
    ensures forall i :: 0 <= i < |Related(catalog, currentProductId, category)| ==>
      Related(catalog, currentProductId, category)[i].id != currentProductId
      && Related(catalog, currentProductId, category)[i].category == category
      && Related(catalog, currentProductId, category)[i] in catalog
    ensures IsSubsequence(Related(catalog, currentProductId, category), catalog)
  {
    var keep := (p: Product) => IsRelated(p, currentProductId, category);
    var all := Filter(catalog, keep);
    FilterMembers(catalog, keep);
    FilterIsSubsequence(catalog, keep);
    var r := Related(catalog, currentProductId, category);
    assert r == all[..Min(4, |all|)];
    forall i | 0 <= i < |r| ensures r[i] == all[i] {
    }
    PrefixIsSubsequence(all, Min(4, |all|));
    SubsequenceTransitive(r, all, catalog);
  }

  /** The component renders `null` for an empty selection and the grid otherwise. */
  function RenderedStrip(catalog: seq<Product>, currentProductId: string, category: string): Option<seq<Product>> {
    var related := Related(catalog, currentProductId, category);
    if |related| == 0 then None else Some(related)
  }

  /** Nothing is rendered exactly when no other product of the category exists. */
  lemma StripHiddenIffNoMatch(catalog: seq<Product>, currentProductId: string, category: string)
    ensures RenderedStrip(catalog, currentProductId, category) == None <==>
      forall i :: 0 <= i < |catalog| ==> !IsRelated(catalog[i], currentProductId, category)
  {
    var keep := (p: Product) => IsRelated(p, currentProductId, category);
    var all := Filter(catalog, keep);
    FilterMembers(catalog, keep);
    RelatedCorrect(catalog, currentProductId, category);
    if RenderedStrip(catalog, currentProductId, category) != None {
      var r := Related(catalog, currentProductId, category);
      assert r[0] == all[0] && all[0] in catalog && keep(all[0]);
    }
  }

  /** `category.toLowerCase().replace(" ", "-")`: a string pattern, so only the first space becomes `-`. */
  function ViewAllSlug(category: string): (r: string)
    ensures |r| == |category|
  {
    ReplaceFirst(ToLower(category), ' ', '-')
  }

  /** The slug is the lower-cased category with its first space, and only that one, turned into `-`. */
  lemma ViewAllSlugFirstSpaceOnly(category: string)
    ensures |ViewAllSlug(category)| == |category|
    ensures forall i :: 0 <= i < |category| ==>
      ViewAllSlug(category)[i] == if category[i] == ' ' && ' ' !in category[..i] then '-' else LowerChar(category[i])
    ensures forall i, j :: 0 <= i < j < |category| && category[i] == ' ' && category[j] == ' ' ==> ViewAllSlug(category)[j] == ' '
  {
    var low := ToLower(category);
    forall i | 0 <= i < |category| ensures (' ' in low[..i]) == (' ' in category[..i]) {
      if ' ' in category[..i] {
        var k :| 0 <= k < i && category[k] == ' ';
        assert low[..i][k] == ' ';
      }
      if ' ' in low[..i] {
        var k :| 0 <= k < i && low[k] == ' ';
        assert category[..i][k] == ' ';
      }
    }
    forall i, j | 0 <= i < j < |category| && category[i] == ' ' && category[j] == ' '
      ensures ViewAllSlug(category)[j] == ' '
    {
      assert category[..j][i] == ' ';
    }
  }
}
