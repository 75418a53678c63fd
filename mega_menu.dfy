/**
 * The mega menu's sub-category links: each item name becomes the slug
 * `item.toLowerCase().replace(/\s+/g, "-")`, every maximal run of whitespace
 * turned into a single `-`.
 *
 * The run-collapsing replacement is defined for any character class `sp`
 * (the `\s` of the pattern); the slug instantiates it with ECMAScript
 * whitespace. Its lemmas hold for every class.
 */
module MegaMenu {
  import opened Text
  import opened Seqs

  /** Drops the characters of class `sp` at the front of `s`. */
  function SkipRun(sp: char -> bool, s: string): (r: string)
    ensures |r| <= |s|
    decreases |s|
  {
    if s != [] && sp(s[0]) then SkipRun(sp, s[1..]) else s
  }

  /** `s.replace(/c+/g, "-")` for the character class `sp`: each maximal run of it becomes one `-`. */
  function Collapse(sp: char -> bool, s: string): string
    decreases |s|
  {
    if s == [] then []
    else if sp(s[0]) then "-" + Collapse(sp, SkipRun(sp, s[1..]))
    else [s[0]] + Collapse(sp, s[1..])
  }

  /** `s.replace(/\s+/g, "-")` */
  function CollapseRuns(s: string): string {
    Collapse(IsSpace, s)
  }

  /** The sub-category slug of a menu item: never longer than the item. */
  function Slug(item: string): (r: string)
    ensures |r| <= |item|
  {
    CollapseNoRun(IsSpace, ToLower(item));
    CollapseRuns(ToLower(item))
  }

  /** Every character of `w` is in class `sp`. */
  predicate AllIn(sp: char -> bool, w: string) {
    forall i :: 0 <= i < |w| ==> sp(w[i])
  }

  /** For a class without `-`, the result holds no character of the class; it is never longer than the input. */
  lemma {:induction false} CollapseNoRun(sp: char -> bool, s: string)
    requires !sp('-')
    ensures forall i :: 0 <= i < |Collapse(sp, s)| ==> !sp(Collapse(sp, s)[i])
    ensures |Collapse(sp, s)| <= |s|
    decreases |s|
  {
    if s != [] {
      if sp(s[0]) {
        CollapseNoRun(sp, SkipRun(sp, s[1..]));
      } else {
        CollapseNoRun(sp, s[1..]);
      }
    }
  }

  /** Text without a character of the class is left as it is. */
  lemma {:induction false} CollapseNoMatch(sp: char -> bool, s: string)
    requires forall i :: 0 <= i < |s| ==> !sp(s[i])
    ensures Collapse(sp, s) == s
    decreases |s|
  {
    if s != [] {
      CollapseNoMatch(sp, s[1..]);
      assert s == [s[0]] + s[1..];
    }
  }

  /** Skipping a run followed by a stretch that does not start with the class leaves that stretch. */
  lemma {:induction false} SkipRunThenWord(sp: char -> bool, w: string, v: string)
    requires AllIn(sp, w)
    requires v == [] || !sp(v[0])
    ensures SkipRun(sp, w + v) == v
    decreases |w|
  {
    if w == [] {
      assert w + v == v;
    } else {
      assert (w + v)[1..] == w[1..] + v;
      SkipRunThenWord(sp, w[1..], v);
    }
  }

  /** Only the leading run of `x` goes, when `x` ends outside the class; the last character stays. */
  lemma {:induction false} SkipAppend(sp: char -> bool, x: string, y: string)
    requires x != [] && !sp(x[|x| - 1])
    ensures SkipRun(sp, x + y) == SkipRun(sp, x) + y
    ensures SkipRun(sp, x) != [] && SkipRun(sp, x)[|SkipRun(sp, x)| - 1] == x[|x| - 1]
    decreases |x|
  {
    if sp(x[0]) {
      assert (x + y)[1..] == x[1..] + y;
      assert x[1..][|x[1..]| - 1] == x[|x| - 1];
      SkipAppend(sp, x[1..], y);
    }
  }

  /** Cutting just before a run, after a character outside the class, splits the result there too. */
  lemma {:induction false} CollapseAppend(sp: char -> bool, u: string, rest: string)
    requires u == [] || !sp(u[|u| - 1])
    requires rest != [] && sp(rest[0])
    ensures Collapse(sp, u + rest) == Collapse(sp, u) + Collapse(sp, rest)
    decreases |u|
  {
    if u == [] {
      assert u + rest == rest;
    } else if sp(u[0]) {
      var x := u[1..];
      assert x[|x| - 1] == u[|u| - 1];
      assert (u + rest)[0] == u[0] && (u + rest)[1..] == x + rest;
      SkipAppend(sp, x, rest);
      CollapseAppend(sp, SkipRun(sp, x), rest);
    } else {
      var x := u[1..];
      assert (u + rest)[0] == u[0] && (u + rest)[1..] == x + rest;
      if x != [] {
        assert x[|x| - 1] == u[|u| - 1];
      }
      CollapseAppend(sp, x, rest);
    }
  }

  /**
   * A maximal run between two stretches becomes exactly one `-`: the result for
   * `u + w + v` is the result for `u`, a dash, and the result for `v`.
   */
  lemma CollapseSplit(sp: char -> bool, u: string, w: string, v: string)
    requires w != [] && AllIn(sp, w)
    requires u == [] || !sp(u[|u| - 1])
    requires v == [] || !sp(v[0])
    ensures Collapse(sp, u + w + v) == Collapse(sp, u) + "-" + Collapse(sp, v)
  {
    assert (w + v)[0] == w[0] && (w + v)[1..] == w[1..] + v;
    SkipRunThenWord(sp, w[1..], v);
    CollapseAppend(sp, u, w + v);
    assert u + w + v == u + (w + v);
  }

  /** A character outside the class that is not a dash. */
  predicate WordChar(sp: char -> bool, c: char) {
    !sp(c) && c != '-'
  }

  predicate NotDash(c: char) {
    c != '-'
  }

  /** A run carries no word characters. */
  lemma {:induction false} FilterSkip(sp: char -> bool, s: string)
    ensures Filter(SkipRun(sp, s), c => WordChar(sp, c)) == Filter(s, c => WordChar(sp, c))
    decreases |s|
  {
    if s != [] && sp(s[0]) {
      FilterSkip(sp, s[1..]);
      assert s == [s[0]] + s[1..];
      FilterCons(s[0], s[1..], c => WordChar(sp, c));
    }
  }

  /** Apart from the dashes, the result holds exactly the word characters of the input, in their order. */
  lemma {:induction false} CollapseKeepsWords(sp: char -> bool, s: string)
    ensures Filter(Collapse(sp, s), NotDash) == Filter(s, c => WordChar(sp, c))
    decreases |s|
  {
    if s != [] {
      assert s == [s[0]] + s[1..];
      FilterCons(s[0], s[1..], c => WordChar(sp, c));
      if sp(s[0]) {
        var t := SkipRun(sp, s[1..]);
        CollapseKeepsWords(sp, t);
        FilterCons('-', Collapse(sp, t), NotDash);
        FilterSkip(sp, s[1..]);
      } else {
        CollapseKeepsWords(sp, s[1..]);
        FilterCons(s[0], Collapse(sp, s[1..]), NotDash);
      }
    }
  }

  /** The slug has no whitespace, is no longer than the item, and keeps its other characters lower-cased and in order. */
  lemma SlugProperties(item: string)
    ensures forall i :: 0 <= i < |Slug(item)| ==> !IsSpace(Slug(item)[i])
    ensures |Slug(item)| <= |item|
    ensures Filter(Slug(item), NotDash) == Filter(ToLower(item), c => WordChar(IsSpace, c))
  {
    CollapseNoRun(IsSpace, ToLower(item));
    CollapseKeepsWords(IsSpace, ToLower(item));
  }

  /** A two-word item becomes the lower-cased words joined by one dash. */
  lemma SlugOfTwoWords(item: string, u: string, v: string)
    requires ToLower(item) == u + " " + v
    requires u != [] && v != []
    requires forall i :: 0 <= i < |u| ==> !IsSpace(u[i])
    requires forall i :: 0 <= i < |v| ==> !IsSpace(v[i])
    ensures Slug(item) == u + "-" + v
  {
    assert AllIn(IsSpace, " ");
    CollapseSplit(IsSpace, u, " ", v);
    CollapseNoMatch(IsSpace, u);
    CollapseNoMatch(IsSpace, v);
  }

  /** Lower-case ASCII letters are not whitespace. */
  lemma LettersAreNotSpace(w: string)
    requires forall i :: 0 <= i < |w| ==> 'a' <= w[i] <= 'z'
    ensures forall i :: 0 <= i < |w| ==> !IsSpace(w[i])
  {
  }

  /** The lower-cased "Samsung Galaxy" is two words without whitespace around one space. */
  lemma SamsungGalaxyWords()
    ensures ToLower("Samsung Galaxy") == "samsung" + " " + "galaxy"
    ensures forall i :: 0 <= i < |"samsung"| ==> !IsSpace("samsung"[i])
    ensures forall i :: 0 <= i < |"galaxy"| ==> !IsSpace("galaxy"[i])
  {
    assert ToLower("Samsung Galaxy") == "samsung" + " " + "galaxy";
    LettersAreNotSpace("samsung");
    LettersAreNotSpace("galaxy");
  }

  /** The "Samsung Galaxy" item under Smartphones & Tablets links to subcategory `samsung-galaxy`. */
  lemma SamsungGalaxySlug()
    ensures Slug("Samsung Galaxy") == "samsung-galaxy"
  {
    SamsungGalaxyWords();
    SlugOfTwoWords("Samsung Galaxy", "samsung", "galaxy");
  }

  /** The lower-cased "Baby Essentials" is two words without whitespace around one space. */
  lemma BabyEssentialsWords()
    ensures ToLower("Baby Essentials") == "baby" + " " + "essentials"
    ensures forall i :: 0 <= i < |"baby"| ==> !IsSpace("baby"[i])
    ensures forall i :: 0 <= i < |"essentials"| ==> !IsSpace("essentials"[i])
  {
    assert ToLower("Baby Essentials") == "baby" + " " + "essentials";
    LettersAreNotSpace("baby");
    LettersAreNotSpace("essentials");
  }

  /** The "Baby Essentials" item under Kids & Baby links to subcategory `baby-essentials`. */
  lemma BabyEssentialsSlug()
    ensures Slug("Baby Essentials") == "baby-essentials"
  {
    assert Slug("Baby Essentials") == "baby" + "-" + "essentials" by {
      BabyEssentialsWords();
      SlugOfTwoWords("Baby Essentials", "baby", "essentials");
    }
  }

}
