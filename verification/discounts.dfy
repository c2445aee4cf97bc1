/**
 * The bookstore's discount table and its discount-listing tool: a fixed
 * header followed by one bullet line per discount, in table order.
 */
module Discounts {
  import opened Text

  /** One discount: its key in the table and the sentence that describes it. */
  datatype Discount = Discount(key: string, description: string)

  /** The bookstore's discounts, in the order they are listed. */
  const DiscountTable: seq<Discount> := [
    Discount("bulk", "Buy 2, Get 1 Free on select Fiction books"),
    Discount("threshold", "10% Discount on purchases above $50"),
    Discount("loyalty", "Loyalty Members get an extra 5% off on every order")
  ]

  const HeaderLine: string := "Available discounts:"

  /** The line that presents one discount, newline included. */
  function Bullet(d: Discount): string {
    "- " + d.description + "\n"
  }

  /** The bullet lines of `ds`, in order. */
  function Bullets(ds: seq<Discount>): string {
    if ds == [] then "" else Bullet(ds[0]) + Bullets(ds[1..])
  }

  /** The whole text the tool answers for the table `ds`. */
  function Listing(ds: seq<Discount>): string {
    HeaderLine + "\n" + Bullets(ds)
  }

  /** Whatever the table, even an empty one, the listing begins with the header line. */
  lemma ListingStartsWithHeader(ds: seq<Discount>)
    ensures |Listing(ds)| > |HeaderLine|
    ensures Listing(ds)[..|HeaderLine| + 1] == HeaderLine + "\n"
  {
  }

  /** Appending a discount to the table appends its bullet to the text. */
  lemma {:induction false} BulletsAppend(ds: seq<Discount>, d: Discount)
    ensures Bullets(ds + [d]) == Bullets(ds) + Bullet(d)
  {
    if ds != [] {
      assert (ds + [d])[1..] == ds[1..] + [d];
      BulletsAppend(ds[1..], d);
    }
  }

  /**
   * The discount-listing tool: starts from the header and appends one bullet
   * line per discount of the table.
   */
  method ListAvailableDiscounts(table: seq<Discount>) returns (result: string)
    ensures result == Listing(table)
  {
    result := HeaderLine + "\n";
    var i := 0;
    while i < |table|
      invariant 0 <= i <= |table|
      invariant result == HeaderLine + "\n" + Bullets(table[..i])
    {
      assert table[..i + 1] == table[..i] + [table[i]];
      BulletsAppend(table[..i], table[i]);
      result := result + Bullet(table[i]);
      i := i + 1;
    }
    assert table[..i] == table;
  }

  /** No description of `ds` spans several lines. */
  predicate SingleLineDescriptions(ds: seq<Discount>) {
    forall i :: 0 <= i < |ds| ==> '\n' !in ds[i].description
  }

  /** The bullets of single-line descriptions split into one "- <description>" line each. */
  lemma {:induction false} BulletsLines(ds: seq<Discount>)
    requires SingleLineDescriptions(ds)
    ensures |SplitLines(Bullets(ds))| == |ds|
    ensures forall i :: 0 <= i < |ds| ==> SplitLines(Bullets(ds))[i] == "- " + ds[i].description
  {
    if ds != [] {
      var d := ds[0].description;
      var line := "- " + d;
      var rest := Bullets(ds[1..]);
      assert '\n' !in line by {
        assert '\n' !in d;
        forall j | 0 <= j < |line| ensures line[j] != '\n' {
          if j >= 2 {
            assert line[j] == d[j - 2];
          }
        }
      }
      assert SingleLineDescriptions(ds[1..]) by {
        forall i | 0 <= i < |ds| - 1 ensures '\n' !in ds[1..][i].description {
          assert ds[1..][i] == ds[i + 1];
        }
      }
      BulletsLines(ds[1..]);
      assert Bullets(ds) == line + "\n" + rest;
      SplitLinesCons(line, rest);
      var lines := SplitLines(rest);
      forall i | 1 <= i < |ds| ensures SplitLines(Bullets(ds))[i] == "- " + ds[i].description {
        assert ([line] + lines)[i] == lines[i - 1];
        assert ds[1..][i - 1] == ds[i];
      }
    }
  }

  /** Non-empty bullet text ends with a newline. */
  lemma {:induction false} BulletsEndWithNewline(ds: seq<Discount>)
    requires ds != []
    ensures |Bullets(ds)| > 0 && Bullets(ds)[|Bullets(ds)| - 1] == '\n'
  {
    if |ds| > 1 {
      BulletsEndWithNewline(ds[1..]);
    }
  }

  /**
   * Read line by line, the listing of a table of single-line descriptions is
   * the header line and then exactly one "- <description>" line per
   * discount, in table order: 1 + |ds| lines in all.
   */
  lemma ListingLines(ds: seq<Discount>)
    requires SingleLineDescriptions(ds)
    ensures |SplitLines(Listing(ds))| == 1 + |ds|
    ensures SplitLines(Listing(ds))[0] == HeaderLine
    ensures forall i :: 0 <= i < |ds| ==> SplitLines(Listing(ds))[i + 1] == "- " + ds[i].description
    ensures Listing(ds)[|Listing(ds)| - 1] == '\n'
  {
    if ds != [] {
      BulletsEndWithNewline(ds);
    }
    var lines := SplitLines(Bullets(ds));
    BulletsLines(ds);
    assert SplitLines(Listing(ds)) == [HeaderLine] + lines by {
      assert '\n' !in HeaderLine by {
        assert '\n' !in "Available discounts:";
      }
      SplitLinesCons(HeaderLine, Bullets(ds));
    }
    forall i | 0 <= i < |ds| ensures SplitLines(Listing(ds))[i + 1] == "- " + ds[i].description {
      assert ([HeaderLine] + lines)[i + 1] == lines[i];
    }
  }

  /** The bookstore's table holds the bulk, threshold and loyalty discounts, in that order. */
  lemma DiscountTableOrder()
    ensures |DiscountTable| == 3
    ensures DiscountTable[0].key == "bulk" && DiscountTable[1].key == "threshold" && DiscountTable[2].key == "loyalty"
    ensures DiscountTable[0].description == "Buy 2, Get 1 Free on select Fiction books"
    ensures DiscountTable[1].description == "10% Discount on purchases above $50"
    ensures DiscountTable[2].description == "Loyalty Members get an extra 5% off on every order"
  {
  }

  /** The bookstore's listing: the header, then one bullet per discount of the table, in order. */
  lemma DiscountTableListing()
    ensures Listing(DiscountTable) ==
      HeaderLine + "\n" + Bullet(DiscountTable[0]) + Bullet(DiscountTable[1]) + Bullet(DiscountTable[2])
  {
    var t := DiscountTable;
    assert Bullets(t[2..]) == Bullet(t[2]) by {
      assert t[2..][1..] == [];
    }
    assert Bullets(t[1..]) == Bullet(t[1]) + Bullets(t[2..]) by {
      assert t[1..][1..] == t[2..];
    }
  }

  lemma BulkSingleLine()
    ensures '\n' !in "Buy 2, Get 1 Free on select Fiction books"
  {
  }

  lemma ThresholdSingleLine()
    ensures '\n' !in "10% Discount on purchases above $50"
  {
  }

  lemma LoyaltyHalves()
    ensures "Loyalty Members get an extra 5% off on every order" ==
      "Loyalty Members get an " + "extra 5% off on every order"
  {
  }

  lemma LoyaltyFrontSingleLine()
    ensures '\n' !in "Loyalty Members get an "
  {
  }

  lemma LoyaltyBackSingleLine()
    ensures '\n' !in "extra 5% off on every order"
  {
  }

  lemma LoyaltySingleLine()
    ensures '\n' !in "Loyalty Members get an extra 5% off on every order"
  {
    LoyaltyHalves();
    LoyaltyFrontSingleLine();
    LoyaltyBackSingleLine();
  }

  /** No description of the bookstore's table spans several lines. */
  lemma DiscountTableSingleLine()
    ensures SingleLineDescriptions(DiscountTable)
  {
    BulkSingleLine();
    ThresholdSingleLine();
    LoyaltySingleLine();
  }

  /**
   * Read line by line, the bookstore's listing is four lines: the header,
   * then "- <description>" for the bulk, threshold and loyalty discounts,
   * in that order; the text ends with a newline.
   */
  lemma DiscountTableLines()
    ensures |SplitLines(Listing(DiscountTable))| == 4
    ensures SplitLines(Listing(DiscountTable))[0] == HeaderLine
    ensures forall i :: 0 <= i < 3 ==> SplitLines(Listing(DiscountTable))[i + 1] == "- " + DiscountTable[i].description
    ensures Listing(DiscountTable)[|Listing(DiscountTable)| - 1] == '\n'
  {
    DiscountTableSingleLine();
    ListingLines(DiscountTable);
  }
}
