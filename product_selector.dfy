/** The product picker: a fixed list of products, a search box that narrows it
    by a case-insensitive substring match on the name, and a caption counting
    the products still listed. */
module ProductSelector {
  import opened Seqs
  import opened Text

  /** A product the picker can open. */
  datatype ProductEntry = ProductEntry(id: int, name: string)

  /** The products the picker lists. */
  const Products: seq<ProductEntry> := [
    ProductEntry(1276, "Jack Daniel's Single Barrel"),
    ProductEntry(1280, "Johnnie Walker Blue Label"),
    ProductEntry(1283, "Macallan 18 Year"),
    ProductEntry(1290, "Grey Goose Vodka"),
    ProductEntry(1295, "Patron Silver Tequila"),
    ProductEntry(1301, "Hendrick's Gin"),
    ProductEntry(1308, "Rémy Martin XO"),
    ProductEntry(1315, "Don Julio 1942")
  ]

  /** Whether a product's name contains the search text, ignoring case. */
  function NameMatches(search: string): ProductEntry -> bool {
    (p: ProductEntry) => MatchesQuery(p.name, search)
  }

  /** The listed products: exactly those whose lower-cased name contains the
      lower-cased search text, in their order in `products`. */
  function FilteredProducts(products: seq<ProductEntry>, search: string): (shown: seq<ProductEntry>)
    ensures forall p :: p in shown <==> p in products && MatchesQuery(p.name, search)
    ensures SelectsInOrder(shown, products, NameMatches(search))
    ensures |shown| <= |products|
  {
    FilterSelectsInOrder(products, NameMatches(search));
    Filter(products, NameMatches(search))
  }

  /** The picker never lists more than its eight products. */
  lemma AtMostEightListed(search: string)
    ensures |FilteredProducts(Products, search)| <= 8
  {
  }

  /** An empty search lists every product, in order. */
  lemma EmptySearchListsAll(products: seq<ProductEntry>)
    ensures FilteredProducts(products, "") == products
  {
    forall p | p in products
      ensures NameMatches("")(p)
    {
      EmptyQueryMatches(p.name);
    }
    FilterKeepsAll(products, NameMatches(""));
  }

  /** Typing the search in another case lists the same products. */
  lemma SearchIgnoresCase(products: seq<ProductEntry>, search: string)
    ensures FilteredProducts(products, ToLower(search)) == FilteredProducts(products, search)
  {
    forall p | p in products
      ensures NameMatches(ToLower(search))(p) == NameMatches(search)(p)
    {
      MatchIgnoresQueryCase(p.name, search);
    }
    FilterCongruent(products, NameMatches(ToLower(search)), NameMatches(search));
  }

  /** "s" after "product" unless exactly one product is listed. */
  function PluralSuffix(count: nat): (suffix: string)
    ensures suffix == "" <==> count == 1
    ensures suffix != "" ==> suffix == "s"
  {
    if count != 1 then "s" else ""
  }

  /** The caption under the list: "<count> product<s> available". */
  function Caption(shown: seq<ProductEntry>): string {
    DecimalText(|shown|) + " product" + PluralSuffix(|shown|) + " available"
  }

  /** The caption starts with the number of products listed, followed by a space. */
  lemma CaptionCountsListed(shown: seq<ProductEntry>)
    ensures var digits := DecimalText(|shown|);
      && |digits| < |Caption(shown)|
      && Caption(shown)[..|digits|] == digits
      && Caption(shown)[|digits|] == ' '
      && DecimalValue(digits) == |shown|
  {
    DecimalRoundTrip(|shown|);
  }

  /** With one product listed the caption reads "1 product available". */
  lemma CaptionSingular(shown: seq<ProductEntry>)
    requires |shown| == 1
    ensures Caption(shown) == "1 product available"
  {
    assert DecimalText(1) == "1";
  }

  /** With any other number listed, "product" is followed by "s". */
  lemma CaptionPlural(shown: seq<ProductEntry>)
    requires |shown| != 1
    ensures var digits := DecimalText(|shown|);
      && |digits| + 9 < |Caption(shown)|
      && Caption(shown)[|digits|..|digits| + 9] == " products"
  {
    var digits := DecimalText(|shown|);
    assert Caption(shown) == digits + " products" + " available";
  }
}
