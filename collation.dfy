/**
 * One collation that meets what the "name-a-z" sort asks of `localeCompare`:
 * the lexicographic order of the ASCII-lower-cased names. It is a total
 * preorder, so every sort lemma applies to it, and it puts the catalog's
 * "iPhone", "Nike" and "Sony" names in the order a locale-aware comparison
 * gives. It is an instance, not `localeCompare` itself: a real collator also
 * ranks accented letters beside their base letters and separates names that
 * differ only in case.
 */
module Collation {
  import opened Text
  import opened StableSort
  import opened Catalog
  import opened ProductSort

  /** Code-point lexicographic order: `a` is a prefix of `b`, or at the first difference `a` has the smaller character. */
  predicate LexLe(a: string, b: string)
    decreases |a|
  {
    a == [] || (b != [] && (a[0] < b[0] || (a[0] == b[0] && LexLe(a[1..], b[1..]))))
  }

  lemma {:induction false} LexLeReflexive(a: string)
    ensures LexLe(a, a)
  {
    if a != [] {
      LexLeReflexive(a[1..]);
    }
  }

  lemma {:induction false} LexLeTotal(a: string, b: string)
    ensures LexLe(a, b) || LexLe(b, a)
    decreases |a|
  {
    if a != [] && b != [] && a[0] == b[0] {
      LexLeTotal(a[1..], b[1..]);
    }
  }

  lemma {:induction false} LexLeTransitive(a: string, b: string, c: string)
    requires LexLe(a, b) && LexLe(b, c)
    ensures LexLe(a, c)
    decreases |a|
  {
    if a != [] && a[0] == b[0] && b[0] == c[0] {
      LexLeTransitive(a[1..], b[1..], c[1..]);
    }
  }

  lemma {:induction false} LexLeAntisymmetric(a: string, b: string)
    requires LexLe(a, b) && LexLe(b, a)
    ensures a == b
    decreases |a|
  {
    if a != [] {
      LexLeAntisymmetric(a[1..], b[1..]);
    }
  }

  /** `a.localeCompare(b) <= 0`, as modelled: `a` may stand before `b`. */
  predicate NameLe(a: string, b: string) {
    LexLe(ToLower(a), ToLower(b))
  }

  lemma NameLeTotalPreorder(a: string, b: string, c: string)
    ensures NameLe(a, a)
    ensures NameLe(a, b) || NameLe(b, a)
    ensures NameLe(a, b) && NameLe(b, c) ==> NameLe(a, c)
  {
    LexLeReflexive(ToLower(a));
    LexLeTotal(ToLower(a), ToLower(b));
    if NameLe(a, b) && NameLe(b, c) {
      LexLeTransitive(ToLower(a), ToLower(b), ToLower(c));
    }
  }

  /** Names tie exactly when they agree after lower-casing. */
  lemma NameTieIsCaseInsensitiveEquality(a: string, b: string)
    ensures (NameLe(a, b) && NameLe(b, a)) <==> ToLower(a) == ToLower(b)
  {
    if NameLe(a, b) && NameLe(b, a) {
      LexLeAntisymmetric(ToLower(a), ToLower(b));
    }
    if ToLower(a) == ToLower(b) {
      LexLeReflexive(ToLower(a));
    }
  }

  lemma NameLeIsTotalPreorder()
    ensures TotalPreorder(NameLe)
  {
    forall a, b, c {
      NameLeTotalPreorder(a, b, c);
    }
  }

  /** The instance ranks "iPhone 15 Pro Max" before "Nike Air Max 270" before "Sony WH-1000XM5", strictly. */
  lemma CatalogNamesInOrder()
    ensures NameLe("iPhone 15 Pro Max", "Nike Air Max 270") && !NameLe("Nike Air Max 270", "iPhone 15 Pro Max")
    ensures NameLe("Nike Air Max 270", "Sony WH-1000XM5") && !NameLe("Sony WH-1000XM5", "Nike Air Max 270")
  {
    assert ToLower("iPhone 15 Pro Max")[0] == 'i';
    assert ToLower("Nike Air Max 270")[0] == 'n';
    assert ToLower("Sony WH-1000XM5")[0] == 's';
  }

  /** Sorting the Nike, iPhone and Sony products by "name-a-z" under this collation gives iPhone, Nike, Sony. */
  lemma NameAZExample(nike: Product, iphone: Product, sony: Product)
    requires nike.name == "Nike Air Max 270" && iphone.name == "iPhone 15 Pro Max" && sony.name == "Sony WH-1000XM5"
    ensures SortProducts(NameLe, [nike, iphone, sony], NameAZ) == [iphone, nike, sony]
  {
    NameLeIsTotalPreorder();
    CatalogNamesInOrder();
    NameSortExample(NameLe, nike, iphone, sony);
  }
}
