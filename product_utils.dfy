/** The slug lookup of lib/product-utils.ts: a product's model, lower-cased,
    with every maximal run of characters outside [a-z0-9] replaced by one
    '-', is compared with the slug of the page's URL. */
module ProductUtils {
  import opened Types
  import opened Strings

  /** `[a-z0-9]`. */
  predicate IsSlugChar(c: char)
  {
    ('a' <= c <= 'z') || ('0' <= c <= '9')
  }

  /** `.replace(/[^a-z0-9]+/g, '-')`, reading `s` left to right; `inRun`
      says the character before `s` was outside [a-z0-9] and has already
      been replaced. */
  function Dashed(s: string, inRun: bool): string
  {
    if s == [] then []
    else if IsSlugChar(s[0]) then [s[0]] + Dashed(s[1..], false)
    else if inRun then Dashed(s[1..], true)
    else ['-'] + Dashed(s[1..], true)
  }

  /** `product.model.toLowerCase().replace(/[^a-z0-9]+/g, '-')`. */
  function Slug(model: string): string
  {
    Dashed(Lower(model), false)
  }

  /** What a slug can look like: only [a-z0-9] and '-', and no two '-' in a
      row. */
  predicate SlugShaped(s: string)
  {
    (forall i :: 0 <= i < |s| ==> IsSlugChar(s[i]) || s[i] == '-') &&
    (forall i :: 0 <= i < |s| - 1 ==> !(s[i] == '-' && s[i + 1] == '-'))
  }

  /** The characters of `s` in [a-z0-9], in order. */
  function SlugChars(s: string): string
  {
    if s == [] then []
    else if IsSlugChar(s[0]) then [s[0]] + SlugChars(s[1..])
    else SlugChars(s[1..])
  }

  lemma {:induction false} DashedShape(s: string, inRun: bool)
    ensures SlugShaped(Dashed(s, inRun))
    ensures inRun && Dashed(s, inRun) != [] ==> Dashed(s, inRun)[0] != '-'
  {
    if s != [] {
      DashedShape(s[1..], !IsSlugChar(s[0]));
    }
  }

  /** Every slug has the slug shape. */
  lemma SlugIsShaped(model: string)
    ensures SlugShaped(Slug(model))
  {
    DashedShape(Lower(model), false);
  }

  /** Replacing runs keeps the letters and digits, and only them: dropping
      the '-' of a slug gives the lower-cased model's letters and digits. */
  lemma {:induction false} DashedKeepsSlugChars(s: string, inRun: bool)
    ensures SlugChars(Dashed(s, inRun)) == SlugChars(s)
  {
    if s != [] {
      DashedKeepsSlugChars(s[1..], !IsSlugChar(s[0]));
    }
  }

  lemma SlugKeepsLettersAndDigits(model: string)
    ensures SlugChars(Slug(model)) == SlugChars(Lower(model))
  {
    DashedKeepsSlugChars(Lower(model), false);
  }

  /** A slug-shaped string is left as it is by the replacement. */
  lemma {:induction false} DashedFixes(s: string, inRun: bool)
    requires SlugShaped(s)
    requires inRun && s != [] ==> s[0] != '-'
    ensures Dashed(s, inRun) == s
  {
    if s != [] {
      assert SlugShaped(s[1..]) by {
        forall i | 0 <= i < |s[1..]| - 1 ensures !(s[1..][i] == '-' && s[1..][i + 1] == '-') {
          assert s[1..][i] == s[i + 1] && s[1..][i + 1] == s[i + 2];
        }
      }
      if |s| > 1 {
        assert !(s[0] == '-' && s[1] == '-');
      }
      DashedFixes(s[1..], !IsSlugChar(s[0]));
    }
  }

  /** Lower-casing does nothing to a slug. */
  lemma LowerFixesShaped(s: string)
    requires SlugShaped(s)
    ensures Lower(s) == s
  {
    forall i | 0 <= i < |s| ensures Lower(s)[i] == s[i] {
      assert IsSlugChar(s[i]) || s[i] == '-';
    }
  }

  /** Slugging a slug gives it back. */
  lemma SlugIdempotent(model: string)
    ensures Slug(Slug(model)) == Slug(model)
  {
    var s := Slug(model);
    SlugIsShaped(model);
    LowerFixesShaped(s);
    DashedFixes(s, false);
  }

  /** Position `k` holds the first product whose model slugs to `slug`. */
  predicate FirstMatchAt(slug: string, products: seq<Product>, k: int)
  {
    0 <= k < |products| && Slug(products[k].model) == slug &&
    forall j :: 0 <= j < k ==> Slug(products[j].model) != slug
  }

  /** `findProductBySlug`: the first product, in list order, whose model
      slugs to `slug`; none when no model does. */
  function FindProductBySlug(slug: string, products: seq<Product>): (r: Option<Product>)
    ensures r.None? <==> forall k :: 0 <= k < |products| ==> Slug(products[k].model) != slug
    ensures r.Some? ==> Slug(r.value.model) == slug
    ensures r.Some? ==> exists k :: FirstMatchAt(slug, products, k) && products[k] == r.value
  {
    if products == [] then None
    else if Slug(products[0].model) == slug then Some(products[0])
    else
      var r := FindProductBySlug(slug, products[1..]);
      assert forall k :: 1 <= k < |products| ==> products[k] == products[1..][k - 1];
      assert r.Some? ==> exists k :: FirstMatchAt(slug, products[1..], k) && products[1..][k] == r.value;
      assert forall k :: FirstMatchAt(slug, products[1..], k) ==> FirstMatchAt(slug, products, k + 1);
      r
  }
}
