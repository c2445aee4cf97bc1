# Bookstore tools, modelled in Dafny

This project models the three tools of the bookstore assistant in `bookstore.py`
and the two static tables they read. The assistant itself is an agent run by a
hosted language model, and it calls these tools to answer customers:

- **Price lookup** (`get_book_price`). The catalog is an ordered table of
  categories (`fiction`, then `non_fiction`). Each category maps exact titles
  to prices. The lookup scans the categories in order and stops at the first
  one that lists the title. It answers `"$<price to two decimals> (<category>)"`,
  or `"Book not found in catalog"` when no category lists the title.
- **Discount listing** (`list_available_discounts`). The tool starts from the
  header `"Available discounts:\n"` and appends one `"- <description>\n"` line
  for each entry of the discount table, in table order.
- **Tax calculation** (`calculate_tax`). When no rate is given, the rate is 0.08.
  Then tax = total × rate and total with tax = total + tax.

Modelling choices:

- Every price literal in the catalog has exactly two decimals, so prices are
  whole cents (`nat`). Rendering a price to two decimals is then exact. It is
  `Money.FormatCents`, which is proved to lose nothing: `Money.ParseCents`
  reads it back.
- The catalog is a `seq<Category>`. The sequence order is the dict's
  insertion order, which is the order the source iterates in. The discount
  table is a `seq<Discount>`.
- The two tables are `const`s (`Catalog.BookCatalog`, `Discounts.DiscountTable`).
  Nothing can modify them.
- The two scanning tools are methods with loops, like the source's `for`
  loops. Each method takes its table as an explicit argument; the assistant
  passes the constant table. Each method is proved equal to a specification
  function (`Catalog.PriceReply`, `Discounts.Listing`). The properties are
  then proved about those functions.
- A method has no `modifies` clause and its result is fixed by a function of
  its inputs. So all three tools have no side effects, and identical inputs
  give identical outputs.
- Tax is computed over exact `real` numbers. The tax rate is an `Option<real>`.
  Only an absent rate is replaced by the default, because the source tests
  `is None`: an explicit rate of 0.0 is kept.
- No input is rejected. Any title is a valid lookup. Negative totals and rates
  pass straight through `calculate_tax`, as in the code.

Modules: `Wrappers` (Option), `Text` (decimal numerals, first index of a
character, splitting text into lines), `Money`, `Catalog`, `Discounts`, `Tax`.

## Model

| member | source | states |
|---|---|---|
| `Money.FormatCents` | bookstore.py:75 | a price is written as decimal units, a point, and exactly two decimal digits; the integer part has no leading zero, and a price below one unit is written `0.dd` (four characters) |
| `Money.FormatCentsRoundTrip` | bookstore.py:75 | the two-decimal rendering of a price can be read back to the same number of cents, so different prices never render alike |
| `Money.FormatCentsExamples` | bookstore.py:75 | 1099 cents render as `10.99`, 1050 as `10.50` (the trailing zero is kept), 1499 as `14.99`, and 5 as `0.05` |
| `Catalog.FirstHolder` | bookstore.py:73-74 | the scan finds nothing exactly when no category lists the title; otherwise it finds a category that lists the title and no earlier category does |
| `Catalog.Quote` | bookstore.py:75 | a hit answer starts with `$`, so it can never be the "not found" sentence |
| `Catalog.QuoteRoundTrip` | bookstore.py:75 | a hit answer `"$<price> (<category>)"` can be read back to exactly the category and price it was built from |
| `Catalog.PriceReply` | bookstore.py:73-76 | the answer is the "not found" sentence if and only if no category lists the title; if the first category in table order that lists it is `i`, the answer is the quote of category `i`'s name and its price for that title |
| `Catalog.GetBookPrice` | bookstore.py:64-76 | the loop with early return gives exactly the answer `PriceReply` specifies, for every catalog and title |
| `Catalog.FictionExample` | bookstore.py:20-27 | `"1984"` gives `"$10.99 (fiction)"` |
| `Catalog.TrailingZeroExample` | bookstore.py:26 | `"The Catcher in the Rye"` gives `"$10.50 (fiction)"`: the trailing zero is kept |
| `Catalog.NonFictionExample` | bookstore.py:28-34 | `"Sapiens"` gives `"$14.99 (non_fiction)"` |
| `Catalog.MissExamples` | bookstore.py:73-76 | `"Nonexistent"` and `"sapiens"` (wrong case) get the "not found" sentence: matching is exact |
| `Catalog.BookCatalogMisses` | bookstore.py:20-35 | over the bookstore's catalog, a title gets the "not found" sentence if and only if it is not one of the ten listed titles |
| `Discounts.ListingStartsWithHeader` | bookstore.py:85-88 | whatever the table, even an empty one, the listing begins with the header line `"Available discounts:\n"`, so it is never empty |
| `Discounts.ListAvailableDiscounts` | bookstore.py:79-88 | the accumulating loop gives exactly the header followed by one bullet line per discount, for every table |
| `Discounts.ListingLines` | bookstore.py:85-88 | when no description contains a newline, splitting the listing at newlines gives 1 + (number of discounts) lines: the header line, then `"- " + description` for each discount in table order; the text ends with a newline, so every line is newline-terminated |
| `Discounts.DiscountTableOrder` | bookstore.py:37-41 | the bookstore's table holds exactly the bulk, threshold and loyalty discounts, in that order, with their descriptions |
| `Discounts.DiscountTableLines` | bookstore.py:37-41 | read line by line, the bookstore's listing is exactly four newline-terminated lines: the header, then `"- " + description` for the bulk, threshold and loyalty discounts, in that order |
| `Discounts.DiscountTableListing` | bookstore.py:37-41 | the bookstore's listing is the header followed by the bullets of the bulk, threshold and loyalty discounts, in that order |
| `Tax.CalculateTax` | bookstore.py:45-61 | tax = total × rate, where the rate is the given one or 0.08 when absent; total with tax minus tax is the order total; total with tax = total × (1 + rate); no input is rejected |
| `Tax.DefaultRateSubstitution` | bookstore.py:56-57 | omitting the rate gives the same result as passing 0.08 |
| `Tax.ZeroRateIsKept` | bookstore.py:56-60 | an explicit rate of 0 is not replaced by the default: it gives zero tax, and for a nonzero total its result differs from the default-rate result |
| `Tax.TaxExamples` | bookstore.py:56-60 | a total of 100 with no rate gives tax 8 and total 108; with rate 0.10 it gives 10 and 110; a total of -50 with no rate gives -4 and -54 |

## Left out

- Tax.CalculateTax: returns the tax and the total with tax as exact reals. It does not model the `"Tax: $…, Total with Tax: $…"` string built with `.2f`. That string depends on IEEE-754 products and their rounding, which are floating point.
- Catalog.GetBookPrice and Discounts.ListAvailableDiscounts: take their table as an argument instead of reading the module-level constant. The source reads the global; the assistant's tables are `Catalog.BookCatalog` and `Discounts.DiscountTable`.
- Discounts.DiscountTableListing: states the bookstore's listing as header plus three bullets, not as one literal string. The equality with the whole 156-character literal runs out of the verifier's resource budget; its line-by-line content is stated by `Discounts.DiscountTableLines`.
- Prices are stored as floats in the source. The model keeps their exact two-decimal values as cents. For these literals, rounding to two decimals gives back the digits as written.
- Agent construction and configuration (`Agent(...)`, `as_tool`, the orchestrator) and the runs through `Runner.run`: the model's routing and answers come from an external hosted service.
- The async driver loops and `main`, which print queries and responses: console I/O around the external service.
- Loading `.env` and checking the API key: process-environment I/O.
- The `@function_tool` decorator: tool-schema generation belongs to the external agents library.
- `tutor.py` and its `solve_equation` tool: it passes text to Python `eval` and to `sympy`, which are foreign code.
