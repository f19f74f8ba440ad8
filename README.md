# Book-sales seeding and publisher-shops query, in Dafny

This project models the core of a small C++ program written against Wt::Dbo
and PostgreSQL. The program creates five tables: publisher, book, shop, stock
and sale. It seeds them with fixed lists of names and random links and counts.
It then asks for a publisher by its 1-based position in the publisher list,
and prints the distinct names of the shops that stock any book of that
publisher.

The model replaces the database with an in-memory `Store`. The store is a
class with one `seq` field per table. A row's id is its 1-based position in
its table: the tables are created fresh before seeding and nothing is deleted,
so the backend's serial ids are dense from 1. Foreign keys are `Option<Id>`,
where `None` is a null `Wt::Dbo::ptr`.

`std::rand()` becomes an injected stream of draws (`Random.Rng`). Each draw is
a value in [0, RAND_MAX], with RAND_MAX = 32767, the Microsoft C runtime's
value: the program includes `windows.h` and calls `system("cls")`. Each
`rand() % n + k` is `Random.Draw`, whose range is proved. Every seeding stage
is specified by the exact rows it builds from the name lists and from the
draws it consumes (`Seeding.Generated`). The guarantees of the seed are lemmas
about that specification:

- the lists are stored verbatim;
- every reference resolves;
- the counts stay within their bounds;
- the sale columns are in format and read back.

`std::set<std::string>` is a strictly increasing sequence under
`std::string`'s lexicographic order (`OrderedSet`). So the query's result is
both deduplicated and in the order in which the program prints it.

Modules, leaf first:

- `Schema`: the entities (`Publisher`, `Book`, `Shop`, `Stock`, `Sale`) as datatypes, `Database` and referential integrity (`Consistent`).
- `Store`: the table class, its insertions and its lookups by name or by id.
- `Random`: the random stream and the range idiom.
- `Decimal`: `std::to_string` for `int`, and reading digits back.
- `SaleFields`: the price and date columns.
- `OrderedSet`: the ordered string set.
- `Seeding`: the five seeding loops and what the seed guarantees.
- `PublisherShops`: the nested-loop query and its set specification.
- `Ordinal`: the range test on the typed ordinal.
- `Program`: the fixed lists and the whole run.

## Model

| member | source | states |
|---|---|---|
| `Store.Find` | source/main.cpp:136 | Equality lookup of a text column. It returns Missing exactly when no row has the key, Unique(id) only when that row is the one match, and Ambiguous only when two rows match. |
| `Store.FindDistinct` | source/main.cpp:136 | In a column without repeated entries, looking up entry i gives exactly the row with id i + 1. |
| `Store.Store.constructor` | source/main.cpp:109-115 | Freshly created tables are all empty. |
| `Store.Store.AddPublisher` | source/main.cpp:125 | Appends one publisher row and leaves the other tables unchanged. Its id is the new table length. |
| `Store.Store.AddBook` | source/main.cpp:140 | Appends one book row and leaves the other tables unchanged. Its id is the new table length. |
| `Store.Store.AddShop` | source/main.cpp:149 | Appends one shop row and leaves the other tables unchanged. Its id is the new table length. |
| `Store.Store.AddStock` | source/main.cpp:170 | Appends one stock row and leaves the other tables unchanged. Its id is the new table length. |
| `Store.Store.AddSale` | source/main.cpp:199 | Appends one sale row and leaves the other tables unchanged. Its id is the new table length. |
| `Store.Store.FindPublisherByName` | source/main.cpp:136 | The outcome of looking up a publisher name in the publisher table's name column. |
| `Store.Store.FindBookByTitle` | source/main.cpp:163 | The outcome of looking up a title in the book table's title column. |
| `Store.Store.FindShopByName` | source/main.cpp:164 | The outcome of looking up a shop name in the shop table's name column. |
| `Store.Store.FindStockById` | source/main.cpp:184 | Gives a stock reference exactly when 1 <= id <= number of stock rows, and then it is that id. Otherwise it gives a null reference. |
| `Store.Store.CountStocks` | source/main.cpp:173 | `stocks.size()` is the number of stock rows. |
| `Random.Rng.Rand` | source/main.cpp:134 | `rand()` returns the next draw of the stream and advances the cursor by one. |
| `Random.Draw` | source/main.cpp:155 | `rand() % n + k` lies in [k, k + n) for every draw. |
| `Decimal.NatText` | source/main.cpp:186 | Decimal text of a non-negative number is all digits and non-empty. It is one character exactly below 10, and has no leading zero except for 0 itself. |
| `Decimal.IntText` | source/main.cpp:186 | `std::to_string(int)`: starts with '-' exactly for negative numbers. For others it is the plain digits. |
| `Decimal.ParseNat` | source/main.cpp:186 | Reading accepts exactly the non-empty all-digit strings. |
| `Decimal.NatTextRoundTrip` | source/main.cpp:186 | Reading the text of n gives n back. |
| `Decimal.NatTextLength` | source/main.cpp:189 | Numbers with 2, 3 or 4 digits have texts of that length. |
| `SaleFields.PriceText` | source/main.cpp:186 | The price column `std::to_string(a) + " $"`: at least three characters ending in `" $"`, with all digits before it for a non-negative amount. `PriceRoundTrip` reads it back. |
| `SaleFields.DateText` | source/main.cpp:189-195 | The date column `to_string(y) + "-" + to_string(m) + "-" + to_string(d)`: at least five characters, since each part has at least one. `DateParts` and `DateRoundTrip` read it back. |
| `SaleFields.DateParts` | source/main.cpp:195 | Splitting a date at '-' gives exactly the texts of its year, month and day. |
| `SaleFields.DateRoundTrip` | source/main.cpp:195 | Reading the date text of (y, m, d) gives (y, m, d) back. |
| `SaleFields.PriceRoundTrip` | source/main.cpp:186 | Reading the price text `"<a> $"` gives a back. |
| `SaleFields.PriceShape` | source/main.cpp:186 | A price with amount in [1, 5] is three characters: a digit '1' to '5', then `" $"`. |
| `SaleFields.DateShape` | source/main.cpp:189-195 | A date with year in [2020, 2023], month in [1, 12] and day in [1, 20] has a four-digit year. Its month and day have one or two digits, with no zero padding. |
| `OrderedSet.Less` | source/main.cpp:224-238 | `std::string`'s `<`, which orders the set: the empty string is below every non-empty string, and nothing is below the empty string. |
| `OrderedSet.PrefixFirst` | source/main.cpp:224-238 | A proper prefix sorts before its extensions, as in `std::string` comparison. |
| `OrderedSet.LessIrreflexive` | source/main.cpp:224 | No string is below itself in `std::string` order. |
| `OrderedSet.LessTransitive` | source/main.cpp:224 | `std::string` order is transitive. |
| `OrderedSet.LessTotal` | source/main.cpp:224 | Of two different strings, one is below the other. |
| `OrderedSet.SortedHasNoDuplicates` | source/main.cpp:224 | A strictly sorted sequence has no repeated element. |
| `OrderedSet.Insert` | source/main.cpp:230 | `std::set::insert` keeps the sequence strictly sorted and adds exactly x to its elements. It changes nothing when x is already present. |
| `OrderedSet.InsertFront` | source/main.cpp:230 | An element below the least one goes in front: the result stays strictly sorted, and the element was not present before. |
| `OrderedSet.InsertAfterHead` | source/main.cpp:230 | An element above the least one goes into the tail: the head stays below every element of the enlarged tail, and the elements are the old ones plus it. |
| `OrderedSet.SortedUnique` | source/main.cpp:236-238 | Two strictly sorted sequences with the same elements are equal. So the printed order is fixed by the set alone. |
| `Seeding.StockRow` | source/main.cpp:158-168 | A stock row built from three draws names a book in [1, B] and a shop in [1, S], with count in [15, 30]. |
| `Seeding.SaleRow` | source/main.cpp:181-197 | A sale built from six draws names a stock id in [1, stock rows] and has count in [1, 5]. |
| `Seeding.Generated` | source/main.cpp:119-200 | The database the five seeding stages build from the lists and the draws. Its publisher, book and shop tables have one row per list entry. |
| `Seeding.BookRows` | source/main.cpp:131-141 | The book stage makes one row per title. |
| `Seeding.StockRows` | source/main.cpp:155-171 | The stock stage makes as many rows as its first draw chose. |
| `Seeding.SaleRows` | source/main.cpp:178-200 | The sale stage makes as many rows as its first draw chose. |
| `Seeding.SeedPublishers` | source/main.cpp:120-126 | Afterwards the publisher table is one row per name, in list order. Nothing else changes. |
| `Seeding.SeedBooks` | source/main.cpp:129-141 | Consumes one draw per title. The book table becomes one row per title, linked to publisher id `draw % P + 1`, which is the row that the lookup of `publisher_names[draw % P]` returns. |
| `Seeding.SeedShops` | source/main.cpp:144-150 | Afterwards the shop table is one row per name, in list order. Nothing else changes. |
| `Seeding.LookUpBook` | source/main.cpp:163 | With distinct titles, looking up `book_titles[index]` by title gives the book row with id index + 1. |
| `Seeding.LookUpShop` | source/main.cpp:164 | With distinct shop names, looking up `shop_names[index]` by name gives the shop row with id index + 1. |
| `Seeding.SeedStock` | source/main.cpp:158-170 | One pass of the stock loop consumes three draws, in source order. It appends one stock row linking the drawn book and shop, with count `draw % 16 + 15`, and changes nothing else. |
| `Seeding.SeedStocks` | source/main.cpp:153-171 | Consumes 1 + 3k draws. It inserts k = `draw % 11 + 10` stock rows, each with the looked-up book and shop ids and a count of `draw % 16 + 15`. |
| `Seeding.DrawPrice` | source/main.cpp:186 | Takes one draw and gives the price text of the amount `draw % 5 + 1`. |
| `Seeding.DrawDate` | source/main.cpp:189-195 | Takes three draws, for year, month and day in that order, and gives their date text. |
| `Seeding.SeedSale` | source/main.cpp:181-199 | One pass of the sale loop consumes six draws, in source order. It appends one sale with the stock id drawn in [1, stock rows], the price text, the date text and the count. |
| `Seeding.SaleStep` | source/main.cpp:179-199 | Appending the sale made from the draws of pass i to the first i sales of the stage gives its first i + 1 sales, with the other tables unchanged. |
| `Seeding.SeedNextSale` | source/main.cpp:179-199 | Pass i of the sale loop takes six draws and extends the sale table from the stage's first i sales to its first i + 1. |
| `Seeding.SeedSales` | source/main.cpp:173-200 | Consumes 1 + 6m draws and inserts m = `draw % 5 + 1` sales, each as one pass of the loop. |
| `Seeding.Seed` | source/main.cpp:119-200 | On fresh tables and usable lists, the resulting database is exactly `Generated` from the stream. It consumes exactly `DrawsTaken` draws. |
| `Seeding.BookRowsResolve` | source/main.cpp:134-139 | Every seeded book's publisher reference names an existing publisher. |
| `Seeding.StockRowsResolve` | source/main.cpp:160-167 | Every seeded stock row names an existing book and an existing shop. |
| `Seeding.SaleRowsResolve` | source/main.cpp:183-196 | Every seeded sale names an existing stock row. The drawn id is in [1, stock rows] and ids are dense. |
| `Seeding.GeneratedVerbatim` | source/main.cpp:120-150 | The name, title and name columns equal the three fixed lists. |
| `Seeding.GeneratedBookLinks` | source/main.cpp:131-140 | Every book's publisher is the row named `publisher_names[index]`, for some index in [0, P). |
| `Seeding.GeneratedStocks` | source/main.cpp:155-168 | There are between 10 and 20 stock rows, and every count is in [15, 30]. |
| `Seeding.GeneratedConsistent` | source/main.cpp:131-196 | Referential integrity: every book, stock and sale reference resolves. |
| `Seeding.GeneratedSales` | source/main.cpp:178-197 | There are between 1 and 5 sales. Each names an existing stock row and has a count in [1, 5]. Its price reads back as a in [1, 5] and equals `"<a> $"`. Its date reads back as (y, m, d) in the stated ranges and equals their text. |
| `PublisherShops.ShopsOf` | source/main.cpp:228-232 | The nested loops return a strictly sorted sequence. Its elements are exactly the shop names of the stock rows whose book belongs to the publisher. |
| `PublisherShops.PublisherShops` | source/main.cpp:224-232 | Looks up the publisher at the given 1-based position of the list. When that publisher is unique, the result is the sorted set of its shop names; otherwise it is empty. |
| `PublisherShops.NoBooksNoShops` | source/main.cpp:228 | A publisher with no books yields the empty set. |
| `PublisherShops.ShopNamesAreShops` | source/main.cpp:230 | Every name the query yields is a name in the shop table. |
| `PublisherShops.NamedOnce` | source/main.cpp:224-230 | In the result, no name appears at two positions, however many stock rows lead to the same shop. |
| `PublisherShops.OneStockScenario` | source/main.cpp:224-232 | Two publishers, one book of the first and one stock row (T1, S1): publisher 1 yields {S1} and publisher 2 yields {}. |
| `PublisherShops.DuplicateShopScenario` | source/main.cpp:230 | Inserting A, B, A gives the two names A, B. |
| `Ordinal.ToSizeT` | source/main.cpp:216 | Converting `int` to `size_t` keeps non-negative values and takes a negative x to 2^64 + x. |
| `Ordinal.Accepts` | source/main.cpp:216 | The test as written: a non-negative id passes exactly when id <= P, and a negative id exactly when 2^64 + id <= P. |
| `Ordinal.AcceptsExactly` | source/main.cpp:216 | For fewer than 2^31 publishers, the test as written accepts exactly the ordinals in [0, P], 0 included. |
| `Ordinal.AcceptsOutOfRange` | source/main.cpp:216-226 | Some accepted ordinal (0) lies outside [1, P], which the query's `publisher_names[id - 1]` needs. |
| `Ordinal.AcceptsOrdinal` | source/main.cpp:216 | The corrected test: it accepts exactly what the test as written accepts, except 0. |
| `Ordinal.AcceptsOrdinalExactly` | source/main.cpp:216 | The corrected test accepts exactly the ordinals in [1, P]. |
| `Program.FixedListsUsable` | source/main.cpp:120-144 | The program's three fixed lists are non-empty and have no repeated entry. |
| `Program.Run` | source/main.cpp:83-240 | In the whole run the seeded database is `Generated` from the stream. Under the corrected test `Ordinal.AcceptsOrdinal` (the test as written would also answer 0), an ordinal is answered exactly when it is in [1, P]. The answer is strictly sorted, equals the query's set and holds only names from `shop_names`. |

## Left out

- Wt::Dbo persistence: `persist`, `mapClass`, the `hasMany` collections and the PostgreSQL connection are replaced by the in-memory store. `Publisher.books`, `Book.stocks`, `Shop.stocks` and `Stock.sales` are the inverse of the foreign keys, so they are not stored.
- Table lifecycle: `dropTables` with its caught exception, and `createTables`, are modelled by the fresh, empty tables of `Store.Store.constructor`.
- The transaction, its commit and the top-level `catch`: this is backend error propagation. No seeding step of the model can fail on the fixed lists.
- `std::srand(std::time(0))`: the time seed becomes the injected draw stream.
- Console I/O: `std::getline`, the `stringstream >> int` / `eof()` parsing, the re-prompt loop, `system("cls")` and every `std::cout` line. Only the range test on the parsed `int` is modelled. `Program.Run` takes the parsed value and answers or refuses once.
- `Store.Find`: the database returns matching rows in no particular order. The model scans in id order. This changes nothing the model states.
- `PublisherShops.ShopsOf`: the source visits `deal_publisher->books` and `book->stocks` in the database's order; the model visits them in id order. The resulting set, and so the printed order, does not depend on it.
- `PublisherShops.PublisherShops`: when the publisher name resolves to no row, there is no publisher row to visit. When it resolves to several rows, the Wt lookup throws. The model returns no names in both cases. Neither case arises after seeding, because the names are distinct.
- `Ordinal.ToSizeT`: assumes a 64-bit `size_t`. With a 32-bit `size_t` the accepted ordinals are the same, because negative values still wrap to huge unsigned ones.
- `Random.Rng.Rand`: assumes the Microsoft C runtime's RAND_MAX of 32767. Only `rand() >= 0` matters for the range facts.
- `OrderedSet.Less`: characters are compared by code point. `std::string` compares bytes as unsigned values, which for UTF-8 text gives the same order.

## Findings

| source | as written | input that shows it | evidently intended | confidence | as-written member | corrected member |
|---|---|---|---|---|---|---|
| source/main.cpp:216 | the ordinal is refused only when `id > publisher_names.size()` | typing `0`: it passes the test, and line 226 then reads `publisher_names[-1]` | refuse `id < 1` as well, so that only 1 .. P reach the query | high (not executed) | `Ordinal.AcceptsOutOfRange` | `Ordinal.AcceptsOrdinalExactly` |

The corrected test `Ordinal.AcceptsOrdinal` is the one `Program.Run` uses. A
negative ordinal is already refused as written, because the signed/unsigned
comparison turns it into a huge `size_t` (`Ordinal.AcceptsExactly`).

The seeding looks up each sale's stock row by a drawn literal id. On the fresh,
dense tables the model assumes, that id always names an existing row
(`Seeding.SaleRowsResolve`). The lookup could miss only if ids were not dense
from 1.

