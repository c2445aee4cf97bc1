/**
 * The bookstore's price catalog and its price-lookup tool.
 *
 * The catalog is an ordered table of categories, each mapping exact book
 * titles to prices; prices are whole cents. A lookup scans the categories in
 * table order and answers with the price and category of the first one that
 * lists the title, or with a fixed "not found" sentence.
 */
module Catalog {
  import opened Wrappers
  import opened Money

  /** One category of the catalog: its name and its titles with their prices in cents. */
  datatype Category = Category(name: string, books: map<string, nat>)

  /** The bookstore's catalog, in the order its categories are scanned. */
  const BookCatalog: seq<Category> := [
    Category("fiction", map[
      "1984" := 1099,
      "To Kill a Mockingbird" := 949,
      "The Great Gatsby" := 899,
      "Brave New World" := 1125,
      "The Catcher in the Rye" := 1050
    ]),
    Category("non_fiction", map[
      "Sapiens" := 1499,
      "Educated" := 1375,
      "Atomic Habits" := 1625,
      "The Power of Habit" := 1250,
      "Thinking, Fast and Slow" := 1799
    ])
  ]

  /** The answer for a title that no category lists. */
  const NotFound: string := "Book not found in catalog"

  /** Some category of `catalog` lists `title` (exact, case-sensitive key match). */
  predicate Listed(catalog: seq<Category>, title: string) {
    exists i :: 0 <= i < |catalog| && title in catalog[i].books
  }

  /** Category `i` lists `title` and no earlier category does. */
  predicate FirstListing(catalog: seq<Category>, title: string, i: nat) {
    i < |catalog| && title in catalog[i].books &&
    forall j :: 0 <= j < i ==> title !in catalog[j].books
  }

  /** The index of the first category, in table order, that lists `title`. */
  function FirstHolder(catalog: seq<Category>, title: string): (r: Option<nat>)
    ensures r.None? <==> !Listed(catalog, title)
    ensures r.Some? ==> FirstListing(catalog, title, r.value)
  {
    if catalog == [] then None
    else if title in catalog[0].books then Some(0)
    else
      match FirstHolder(catalog[1..], title)
      case None =>
        assert forall i :: 1 <= i < |catalog| ==> catalog[i] == catalog[1..][i - 1];
        None
      case Some(i) =>
        assert forall j :: 1 <= j <= i ==> catalog[j] == catalog[1..][j - 1];
        Some(i + 1)
  }

  /** The answer for a title found in `category` at `cents`: "$<price to two decimals> (<category>)". */
  function Quote(category: string, cents: nat): (s: string)
    ensures |s| > 0 && s[0] == '$'
  {
    "$" + FormatCents(cents) + " (" + category + ")"
  }

  /** Reads a quote back into its category and price. */
  function ParseQuote(s: string): Option<(string, nat)> {
    if |s| == 0 || s[0] != '$' then None
    else
      var k := Text.FirstIndex(s, ' ');
      if k + 3 <= |s| && s[k + 1] == '(' && s[|s| - 1] == ')' then
        match ParseCents(s[1..k])
        case None => None
        case Some(cents) => Some((s[k + 2..|s| - 1], cents))
      else
        None
  }

  /** A quote names its category and price unambiguously. */
  lemma QuoteRoundTrip(category: string, cents: nat)
    ensures ParseQuote(Quote(category, cents)) == Some((category, cents))
  {
    var m := FormatCents(cents);
    var s := Quote(category, cents);
    var k := 1 + |m|;
    assert s[k] == ' ' && s[k + 1] == '(';
    forall j | 0 <= j < k ensures s[j] != ' ' {
      if j > 0 {
        assert s[j] == m[j - 1];
        if j - 1 < |m| - 3 {
          assert m[..|m| - 3][j - 1] == m[j - 1];
        } else if j - 1 > |m| - 3 {
          assert m[|m| - 2..][j - 1 - (|m| - 2)] == m[j - 1];
        }
      }
    }
    Text.FirstIndexAt(s, ' ', k);
    assert s[1..k] == m;
    assert s[k + 2..|s| - 1] == category;
    FormatCentsRoundTrip(cents);
  }

  /** What the price-lookup tool answers for `title` over `catalog`. */
  function PriceReply(catalog: seq<Category>, title: string): (reply: string)
    ensures reply == NotFound <==> !Listed(catalog, title)
    ensures forall i: nat :: FirstListing(catalog, title, i) ==>
              reply == Quote(catalog[i].name, catalog[i].books[title])
  {
    match FirstHolder(catalog, title)
    case None => NotFound
    case Some(i) =>
      assert NotFound[0] == 'B';
      Quote(catalog[i].name, catalog[i].books[title])
  }

  /**
   * The price-lookup tool: scans the catalog's categories in order and
   * returns on the first one that lists `title`.
   */
  method GetBookPrice(catalog: seq<Category>, title: string) returns (reply: string)
    ensures reply == PriceReply(catalog, title)
  {
    var i := 0;
    while i < |catalog|
      invariant 0 <= i <= |catalog|
      invariant forall j :: 0 <= j < i ==> title !in catalog[j].books
    {
      var category := catalog[i];
      if title in category.books {
        assert FirstListing(catalog, title, i);
        return Quote(category.name, category.books[title]);
      }
      i := i + 1;
    }
    return NotFound;
  }

  /** The quote text used by the next example. */
  lemma FictionQuoteText()
    ensures Quote("fiction", 1099) == "$10.99 (fiction)"
  {
    FormatCentsExamples();
  }

  /** Worked answers of the lookup over the bookstore's catalog: a fiction title. */
  lemma FictionExample()
    ensures PriceReply(BookCatalog, "1984") == "$10.99 (fiction)"
  {
    assert FirstListing(BookCatalog, "1984", 0);
    FictionQuoteText();
  }

  /** The quote text used by the next example. */
  lemma TrailingZeroQuoteText()
    ensures Quote("fiction", 1050) == "$10.50 (fiction)"
  {
    FormatCentsExamples();
  }

  /** A fiction price that ends in a zero keeps both decimals. */
  lemma TrailingZeroExample()
    ensures PriceReply(BookCatalog, "The Catcher in the Rye") == "$10.50 (fiction)"
  {
    assert FirstListing(BookCatalog, "The Catcher in the Rye", 0);
    TrailingZeroQuoteText();
  }

  /** The quote text used by the next example. */
  lemma NonFictionQuoteText()
    ensures Quote("non_fiction", 1499) == "$14.99 (non_fiction)"
  {
    FormatCentsExamples();
  }

  /** A title of the second category. */
  lemma NonFictionExample()
    ensures PriceReply(BookCatalog, "Sapiens") == "$14.99 (non_fiction)"
  {
    assert FirstListing(BookCatalog, "Sapiens", 1);
    NonFictionQuoteText();
  }

  /** Matching is exact: an unknown title, or a listed one in other letter case, is not found. */
  lemma MissExamples()
    ensures PriceReply(BookCatalog, "Nonexistent") == NotFound
    ensures PriceReply(BookCatalog, "sapiens") == NotFound
  {
    assert "sapiens" != "Sapiens" by {
      assert "sapiens"[0] != "Sapiens"[0];
    }
    assert !Listed(BookCatalog, "Nonexistent");
    assert !Listed(BookCatalog, "sapiens");
  }

  /** The titles the bookstore's catalog lists. */
  const CatalogTitles: set<string> := {
    "1984", "To Kill a Mockingbird", "The Great Gatsby", "Brave New World",
    "The Catcher in the Rye", "Sapiens", "Educated", "Atomic Habits",
    "The Power of Habit", "Thinking, Fast and Slow"
  }

  /** Over the bookstore's catalog, a title gets the "not found" answer exactly when it is not one of the ten listed titles. */
  lemma BookCatalogMisses(title: string)
    ensures PriceReply(BookCatalog, title) == NotFound <==> title !in CatalogTitles
  {
    if title in CatalogTitles {
      assert title in BookCatalog[0].books || title in BookCatalog[1].books;
    }
  }
}
