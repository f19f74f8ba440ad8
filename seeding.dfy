/**
 * The seeding procedure: publishers, then books each linked to a random
 * publisher, then shops, then a random number of stock rows, then a random
 * number of sales, all inserted into freshly created tables.
 *
 * Each stage is specified by the exact rows it produces from the name lists
 * and from the random draws it consumes; `Generated` puts the five stages
 * together, and the lemmas at the end derive the guarantees of the seed
 * (verbatim lists, resolving references, bounded counts and well-formed
 * sale columns) from it.
 */
module Seeding {
  import opened Schema
  import opened Store
  import opened Random
  import opened Decimal
  import opened SaleFields

  // ---------------------------------------------------------------------
  // The rows each stage produces

  /** One publisher per name, in list order. */
  function PublisherRows(names: seq<string>): (rows: seq<Publisher>)
    ensures |rows| == |names|
  {
    seq(|names|, i requires 0 <= i < |names| => Publisher(names[i]))
  }

  /** One shop per name, in list order. */
  function ShopRows(names: seq<string>): (rows: seq<Shop>)
    ensures |rows| == |names|
  {
    seq(|names|, i requires 0 <= i < |names| => Shop(names[i]))
  }

  /**
   * One book per title, in list order; the i-th takes draw `start + i` and is
   * linked to the publisher at position `rand() % P`, whose id is one more.
   */
  function BookRows(titles: seq<string>, publishers: nat, stream: nat -> RandInt, start: nat): (rows: seq<Book>)
    requires publishers > 0
    ensures |rows| == |titles|
  {
    seq(|titles|, i requires 0 <= i < |titles| =>
      Book(titles[i], Some(Draw(stream(start + i), publishers, 0) + 1)))
  }

  /** How many stock rows are made when the stage starts at draw `start`. */
  function StockCount(stream: nat -> RandInt, start: nat): int {
    Draw(stream(start), 11, 10)
  }

  /** The stock row made from the three draws at `at`, `at + 1` and `at + 2`. */
  function StockRow(books: nat, shops: nat, stream: nat -> RandInt, at: nat): (row: Stock)
    requires books > 0 && shops > 0
    ensures row.book.Some? && 1 <= row.book.value <= books
    ensures row.shop.Some? && 1 <= row.shop.value <= shops
    ensures 15 <= row.count <= 30
  {
    Stock(Some(Draw(stream(at), books, 0) + 1),
          Some(Draw(stream(at + 1), shops, 0) + 1),
          Draw(stream(at + 2), 16, 15))
  }

  /** The stock rows of a stage starting at draw `start`. */
  function StockRows(books: nat, shops: nat, stream: nat -> RandInt, start: nat): (rows: seq<Stock>)
    requires books > 0 && shops > 0
    ensures |rows| == StockCount(stream, start)
  {
    seq(StockCount(stream, start), i requires 0 <= i < StockCount(stream, start) =>
      StockRow(books, shops, stream, start + 1 + 3 * i))
  }

  /** How many sales are made when the stage starts at draw `start`. */
  function SaleCount(stream: nat -> RandInt, start: nat): int {
    Draw(stream(start), 5, 1)
  }

  /**
   * The sale made from the six draws at `at` .. `at + 5`: stock id, price
   * amount, year, month, day and count, in that order.
   */
  function SaleRow(stocks: nat, stream: nat -> RandInt, at: nat): (row: Sale)
    requires stocks > 0
    ensures row.stock.Some? && 1 <= row.stock.value <= stocks
    ensures 1 <= row.count <= 5
  {
    Sale(PriceText(Draw(stream(at + 1), 5, 1)),
         DateText(Draw(stream(at + 2), 4, 2020), Draw(stream(at + 3), 12, 1), Draw(stream(at + 4), 20, 1)),
         Some(Draw(stream(at), stocks, 1)),
         Draw(stream(at + 5), 5, 1))
  }

  /** The sales of a stage starting at draw `start`. */
  function SaleRows(stocks: nat, stream: nat -> RandInt, start: nat): (rows: seq<Sale>)
    requires stocks > 0
    ensures |rows| == SaleCount(stream, start)
  {
    seq(SaleCount(stream, start), i requires 0 <= i < SaleCount(stream, start) =>
      SaleRow(stocks, stream, start + 1 + 6 * i))
  }

  /** None of the three name lists is empty (each is the modulus of a draw). */
  predicate NonEmptyLists(publisherNames: seq<string>, bookTitles: seq<string>, shopNames: seq<string>) {
    |publisherNames| > 0 && |bookTitles| > 0 && |shopNames| > 0
  }

  /**
   * The three name lists the seed is built from: non-empty and without
   * repeats, so that every lookup by name finds exactly one row.
   */
  predicate ListsUsable(publisherNames: seq<string>, bookTitles: seq<string>, shopNames: seq<string>) {
    NonEmptyLists(publisherNames, bookTitles, shopNames) &&
    Distinct(publisherNames) && Distinct(bookTitles) && Distinct(shopNames)
  }

  /** The database the whole procedure produces from draws `start`, `start + 1`, .... */
  predicate Generated(db: Database, publisherNames: seq<string>, bookTitles: seq<string>, shopNames: seq<string>,
                      stream: nat -> RandInt, start: nat)
    requires NonEmptyLists(publisherNames, bookTitles, shopNames)
    ensures Generated(db, publisherNames, bookTitles, shopNames, stream, start) ==>
      |db.publishers| == |publisherNames| && |db.books| == |bookTitles| && |db.shops| == |shopNames|
  {
    var stockStart := start + |bookTitles|;
    var saleStart := stockStart + 1 + 3 * StockCount(stream, stockStart);
    db.publishers == PublisherRows(publisherNames) &&
    db.books == BookRows(bookTitles, |publisherNames|, stream, start) &&
    db.shops == ShopRows(shopNames) &&
    db.stocks == StockRows(|bookTitles|, |shopNames|, stream, stockStart) &&
    db.sales == SaleRows(|db.stocks|, stream, saleStart)
  }

  /** How many draws the whole procedure takes. */
  function DrawsTaken(bookTitles: seq<string>, stream: nat -> RandInt, start: nat): int {
    var stockStart := start + |bookTitles|;
    var saleStart := stockStart + 1 + 3 * StockCount(stream, stockStart);
    saleStart + 1 + 6 * SaleCount(stream, saleStart) - start
  }

  lemma PublisherRowsNames(names: seq<string>)
    ensures PublisherNames(PublisherRows(names)) == names
  {
  }

  lemma ShopRowsNames(names: seq<string>)
    ensures ShopNames(ShopRows(names)) == names
  {
  }

  lemma BookRowsTitles(titles: seq<string>, publishers: nat, stream: nat -> RandInt, start: nat)
    requires publishers > 0
    ensures BookTitles(BookRows(titles, publishers, stream, start)) == titles
  {
  }

  // ---------------------------------------------------------------------
  // The five loops

  /** Inserts every publisher name, in order (the first loop). */
  method SeedPublishers(store: Store, names: seq<string>)
    requires store.publishers == []
    modifies store
    ensures store.Snapshot() == old(store.Snapshot()).(publishers := PublisherRows(names))
  {
    var i := 0;
    while i < |names|
      invariant 0 <= i <= |names|
      invariant store.Snapshot() == old(store.Snapshot()).(publishers := PublisherRows(names[..i]))
    {
      var _ := store.AddPublisher(Publisher(names[i]));
      assert PublisherRows(names[..i + 1]) == PublisherRows(names[..i]) + [Publisher(names[i])];
      i := i + 1;
    }
    assert names[..i] == names;
  }

  /**
   * Inserts one book per title, in order, each linked to the publisher that
   * a by-name lookup of a randomly chosen publisher name returns (the second
   * loop).
   */
  method SeedBooks(store: Store, rng: Rng, publisherNames: seq<string>, titles: seq<string>)
    requires |publisherNames| > 0 && Distinct(publisherNames)
    requires store.publishers == PublisherRows(publisherNames) && store.books == []
    modifies store, rng
    ensures rng.drawn == old(rng.drawn) + |titles|
    ensures store.Snapshot() ==
      old(store.Snapshot()).(books := BookRows(titles, |publisherNames|, rng.stream, old(rng.drawn)))
  {
    ghost var start := rng.drawn;
    PublisherRowsNames(publisherNames);
    var i := 0;
    while i < |titles|
      invariant 0 <= i <= |titles|
      invariant rng.drawn == start + i
      invariant store.Snapshot() ==
        old(store.Snapshot()).(books := BookRows(titles[..i], |publisherNames|, rng.stream, start))
    {
      var r := rng.Rand();
      var index := Draw(r, |publisherNames|, 0);
      var p := store.FindPublisherByName(publisherNames[index]);
      FindDistinct(PublisherNames(store.publishers), index, p);
      var _ := store.AddBook(Book(titles[i], Some(p.id)));
      assert BookRows(titles[..i + 1], |publisherNames|, rng.stream, start) ==
        BookRows(titles[..i], |publisherNames|, rng.stream, start) + [Book(titles[i], Some(p.id))];
      i := i + 1;
    }
    assert titles[..i] == titles;
  }

  /** Inserts every shop name, in order (the third loop). */
  method SeedShops(store: Store, names: seq<string>)
    requires store.shops == []
    modifies store
    ensures store.Snapshot() == old(store.Snapshot()).(shops := ShopRows(names))
  {
    var i := 0;
    while i < |names|
      invariant 0 <= i <= |names|
      invariant store.Snapshot() == old(store.Snapshot()).(shops := ShopRows(names[..i]))
    {
      var _ := store.AddShop(Shop(names[i]));
      assert ShopRows(names[..i + 1]) == ShopRows(names[..i]) + [Shop(names[i])];
      i := i + 1;
    }
    assert names[..i] == names;
  }

  /** The by-title lookup of `titles[index]` finds the book row with id `index + 1`. */
  method LookUpBook(store: Store, titles: seq<string>, index: nat) returns (id: Id)
    requires Distinct(titles) && BookTitles(store.books) == titles && index < |titles|
    ensures id == index + 1
  {
    var b := store.FindBookByTitle(titles[index]);
    FindDistinct(titles, index, b);
    id := b.id;
  }

  /** The by-name lookup of `shopNames[index]` finds the shop row with id `index + 1`. */
  method LookUpShop(store: Store, shopNames: seq<string>, index: nat) returns (id: Id)
    requires Distinct(shopNames) && ShopNames(store.shops) == shopNames && index < |shopNames|
    ensures id == index + 1
  {
    var sh := store.FindShopByName(shopNames[index]);
    FindDistinct(shopNames, index, sh);
    id := sh.id;
  }

  /**
   * One pass of the fourth loop: draws a book index and a shop index, looks
   * both up by title and by name, and inserts a stock row for them with a
   * random count.
   */
  method SeedStock(store: Store, rng: Rng, titles: seq<string>, shopNames: seq<string>)
    requires |titles| > 0 && |shopNames| > 0 && Distinct(titles) && Distinct(shopNames)
    requires BookTitles(store.books) == titles && ShopNames(store.shops) == shopNames
    modifies store, rng
    ensures rng.drawn == old(rng.drawn) + 3
    ensures store.Snapshot() ==
      old(store.Snapshot()).(stocks := old(store.stocks) + [StockRow(|titles|, |shopNames|, rng.stream, old(rng.drawn))])
  {
    var rb := rng.Rand();
    var rs := rng.Rand();
    var indexBook := Draw(rb, |titles|, 0);
    var indexShop := Draw(rs, |shopNames|, 0);
    var book := LookUpBook(store, titles, indexBook);
    var shop := LookUpShop(store, shopNames, indexShop);
    var rc := rng.Rand();
    var _ := store.AddStock(Stock(Some(book), Some(shop), Draw(rc, 16, 15)));
  }

  /** A prefix one longer is the prefix followed by the next element. */
  lemma Snoc<T>(s: seq<T>, i: nat, x: T)
    requires i < |s| && s[i] == x
    ensures s[..i + 1] == s[..i] + [x]
  {
    assert s[..i + 1] == s[..i] + [s[i]];
  }

  lemma StockRowsPrefix(books: nat, shops: nat, stream: nat -> RandInt, start: nat, i: nat)
    requires books > 0 && shops > 0 && i < StockCount(stream, start)
    ensures StockRows(books, shops, stream, start)[..i + 1] ==
      StockRows(books, shops, stream, start)[..i] + [StockRow(books, shops, stream, start + 1 + 3 * i)]
  {
    Snoc(StockRows(books, shops, stream, start), i, StockRow(books, shops, stream, start + 1 + 3 * i));
  }

  /**
   * Inserts between 10 and 20 stock rows, each for a randomly chosen book and
   * shop (found by title and by name) with a random count in [15, 30] (the
   * fourth loop).
   */
  method SeedStocks(store: Store, rng: Rng, titles: seq<string>, shopNames: seq<string>)
    requires |titles| > 0 && |shopNames| > 0 && Distinct(titles) && Distinct(shopNames)
    requires BookTitles(store.books) == titles && ShopNames(store.shops) == shopNames
    requires store.stocks == []
    modifies store, rng
    ensures rng.drawn == old(rng.drawn) + 1 + 3 * StockCount(rng.stream, old(rng.drawn))
    ensures store.Snapshot() ==
      old(store.Snapshot()).(stocks := StockRows(|titles|, |shopNames|, rng.stream, old(rng.drawn)))
  {
    ghost var start := rng.drawn;
    var r := rng.Rand();
    var counter := Draw(r, 11, 10);
    ghost var rows := StockRows(|titles|, |shopNames|, rng.stream, start);
    var i := 0;
    while i < counter
      invariant 0 <= i <= counter == |rows|
      invariant rng.drawn == start + 1 + 3 * i
      invariant store.Snapshot() == old(store.Snapshot()).(stocks := rows[..i])
    {
      SeedStock(store, rng, titles, shopNames);
      StockRowsPrefix(|titles|, |shopNames|, rng.stream, start, i);
      i := i + 1;
    }
    assert rows[..i] == rows;
  }

  /** The price column of a sale: one draw for the amount in [1, 5]. */
  method DrawPrice(rng: Rng) returns (price: string)
    modifies rng
    ensures rng.drawn == old(rng.drawn) + 1
    ensures price == PriceText(Draw(rng.stream(old(rng.drawn)), 5, 1))
  {
    var rp := rng.Rand();
    price := PriceText(Draw(rp, 5, 1));
  }

  /** The date column of a sale: three draws, for the year, the month and the day. */
  method DrawDate(rng: Rng) returns (date: string)
    modifies rng
    ensures rng.drawn == old(rng.drawn) + 3
    ensures date == DateText(Draw(rng.stream(old(rng.drawn)), 4, 2020), Draw(rng.stream(old(rng.drawn) + 1), 12, 1),
                             Draw(rng.stream(old(rng.drawn) + 2), 20, 1))
  {
    var ry := rng.Rand();
    var year := Draw(ry, 4, 2020);
    var rm := rng.Rand();
    var month := Draw(rm, 12, 1);
    var rd := rng.Rand();
    var day := Draw(rd, 20, 1);
    date := DateText(year, month, day);
  }

  /**
   * One pass of the fifth loop: looks up the stock row whose id is drawn in
   * [1, total] and inserts a sale for it with a random price, date and count.
   */
  method SeedSale(store: Store, rng: Rng, total: nat)
    requires total == |store.stocks| > 0
    modifies store, rng
    ensures rng.drawn == old(rng.drawn) + 6
    ensures store.Snapshot() ==
      old(store.Snapshot()).(sales := old(store.sales) + [SaleRow(total, rng.stream, old(rng.drawn))])
  {
    var ri := rng.Rand();
    var s := store.FindStockById(Draw(ri, total, 1));
    var price := DrawPrice(rng);
    var date := DrawDate(rng);
    var rc := rng.Rand();
    var _ := store.AddSale(Sale(price, date, s, Draw(rc, 5, 1)));
  }

  /**
   * Appending the sale made from the six draws at `start + 1 + 6 * i` to the
   * first `i` sales of the stage gives its first `i + 1`.
   */
  lemma SaleStep(base: Database, before: Database, after: Database,
                  stocks: nat, stream: nat -> RandInt, start: nat, i: nat)
    requires stocks > 0 && i < SaleCount(stream, start)
    requires before == base.(sales := SaleRows(stocks, stream, start)[..i])
    requires after == before.(sales := before.sales + [SaleRow(stocks, stream, start + 1 + 6 * i)])
    ensures after == base.(sales := SaleRows(stocks, stream, start)[..i + 1])
  {
    Snoc(SaleRows(stocks, stream, start), i, SaleRow(stocks, stream, start + 1 + 6 * i));
  }

  /** One pass of the fifth loop, as the `i`-th step of the stage that started at draw `start`. */
  method SeedNextSale(store: Store, rng: Rng, total: nat, ghost base: Database, ghost start: nat, ghost i: nat)
    requires total == |base.stocks| > 0 && i < SaleCount(rng.stream, start)
    requires rng.drawn == start + 1 + 6 * i
    requires store.Snapshot() == base.(sales := SaleRows(total, rng.stream, start)[..i])
    modifies store, rng
    ensures rng.drawn == old(rng.drawn) + 6
    ensures store.Snapshot() == base.(sales := SaleRows(total, rng.stream, start)[..i + 1])
  {
    ghost var before := store.Snapshot();
    SeedSale(store, rng, total);
    SaleStep(base, before, store.Snapshot(), total, rng.stream, start, i);
  }

  /**
   * Inserts between 1 and 5 sales, each for the stock row whose id is drawn
   * in [1, number of stock rows], with a random price, date and count (the
   * fifth loop).
   */
  method SeedSales(store: Store, rng: Rng)
    requires |store.stocks| > 0 && store.sales == []
    modifies store, rng
    ensures rng.drawn == old(rng.drawn) + 1 + 6 * SaleCount(rng.stream, old(rng.drawn))
    ensures store.Snapshot() ==
      old(store.Snapshot()).(sales := SaleRows(old(|store.stocks|), rng.stream, old(rng.drawn)))
  {
    ghost var start := rng.drawn;
    var total := store.CountStocks();
    var r := rng.Rand();
    var counter := Draw(r, 5, 1);
    ghost var rows := SaleRows(total, rng.stream, start);
    ghost var base := store.Snapshot();
    var i := 0;
    while i < counter
      invariant 0 <= i <= counter == |rows|
      invariant rng.drawn == start + 1 + 6 * i
      invariant store.Snapshot() == base.(sales := rows[..i])
    {
      SeedNextSale(store, rng, total, base, start, i);
      i := i + 1;
    }
    assert rows[..i] == rows;
  }

  /** The whole procedure, on freshly created tables. */
  method Seed(store: Store, rng: Rng, publisherNames: seq<string>, bookTitles: seq<string>, shopNames: seq<string>)
    requires ListsUsable(publisherNames, bookTitles, shopNames)
    requires store.Snapshot() == EmptyDatabase
    modifies store, rng
    ensures Generated(store.Snapshot(), publisherNames, bookTitles, shopNames, rng.stream, old(rng.drawn))
    ensures rng.drawn == old(rng.drawn) + DrawsTaken(bookTitles, rng.stream, old(rng.drawn))
  {
    SeedPublishers(store, publisherNames);
    SeedBooks(store, rng, publisherNames, bookTitles);
    BookRowsTitles(bookTitles, |publisherNames|, rng.stream, old(rng.drawn));
    SeedShops(store, shopNames);
    ShopRowsNames(shopNames);
    SeedStocks(store, rng, bookTitles, shopNames);
    SeedSales(store, rng);
  }

  // ---------------------------------------------------------------------
  // What the seed guarantees

  /** The fixed lists are stored verbatim, one row per entry, in list order. */
  lemma GeneratedVerbatim(db: Database, publisherNames: seq<string>, bookTitles: seq<string>, shopNames: seq<string>,
                          stream: nat -> RandInt, start: nat)
    requires NonEmptyLists(publisherNames, bookTitles, shopNames)
    requires Generated(db, publisherNames, bookTitles, shopNames, stream, start)
    ensures PublisherNames(db.publishers) == publisherNames
    ensures BookTitles(db.books) == bookTitles
    ensures ShopNames(db.shops) == shopNames
  {
    PublisherRowsNames(publisherNames);
    BookRowsTitles(bookTitles, |publisherNames|, stream, start);
    ShopRowsNames(shopNames);
  }

  /**
   * Every book is linked to the publisher row named `publisherNames[index]`,
   * for the index in [0, P) that its draw chose.
   */
  lemma GeneratedBookLinks(db: Database, publisherNames: seq<string>, bookTitles: seq<string>, shopNames: seq<string>,
                           stream: nat -> RandInt, start: nat, i: nat)
    requires NonEmptyLists(publisherNames, bookTitles, shopNames)
    requires Generated(db, publisherNames, bookTitles, shopNames, stream, start)
    requires i < |db.books|
    ensures exists index ::
      (0 <= index < |publisherNames| &&
       db.books[i].publisher == Some(index + 1) && db.publishers[index].name == publisherNames[index])
  {
    var index := Draw(stream(start + i), |publisherNames|, 0);
    assert db.books[i].publisher == Some(index + 1);
    assert db.publishers[index] == Publisher(publisherNames[index]);
  }

  /** Between 10 and 20 stock rows, each with a count in [15, 30]. */
  lemma GeneratedStocks(db: Database, publisherNames: seq<string>, bookTitles: seq<string>, shopNames: seq<string>,
                        stream: nat -> RandInt, start: nat)
    requires NonEmptyLists(publisherNames, bookTitles, shopNames)
    requires Generated(db, publisherNames, bookTitles, shopNames, stream, start)
    ensures 10 <= |db.stocks| <= 20
    ensures forall i :: 0 <= i < |db.stocks| ==> 15 <= db.stocks[i].count <= 30
  {
    var stockStart := start + |bookTitles|;
    forall i | 0 <= i < |db.stocks| ensures 15 <= db.stocks[i].count <= 30 {
      assert db.stocks[i] == StockRow(|bookTitles|, |shopNames|, stream, stockStart + 1 + 3 * i);
    }
  }

  /** Every book names an existing publisher. */
  lemma BookRowsResolve(titles: seq<string>, publishers: nat, stream: nat -> RandInt, start: nat, i: nat)
    requires publishers > 0 && i < |titles|
    ensures Resolves(BookRows(titles, publishers, stream, start)[i].publisher, publishers)
  {
    var index := Draw(stream(start + i), publishers, 0);
    assert BookRows(titles, publishers, stream, start)[i].publisher == Some(index + 1);
  }

  /** Every stock row names an existing book and an existing shop. */
  lemma StockRowsResolve(books: nat, shops: nat, stream: nat -> RandInt, start: nat, i: nat)
    requires books > 0 && shops > 0
    requires i < |StockRows(books, shops, stream, start)|
    ensures Resolves(StockRows(books, shops, stream, start)[i].book, books)
    ensures Resolves(StockRows(books, shops, stream, start)[i].shop, shops)
  {
    assert StockRows(books, shops, stream, start)[i] == StockRow(books, shops, stream, start + 1 + 3 * i);
  }

  /** Every sale names an existing stock row. */
  lemma SaleRowsResolve(stocks: nat, stream: nat -> RandInt, start: nat, i: nat)
    requires stocks > 0
    requires i < |SaleRows(stocks, stream, start)|
    ensures Resolves(SaleRows(stocks, stream, start)[i].stock, stocks)
  {
    assert SaleRows(stocks, stream, start)[i] == SaleRow(stocks, stream, start + 1 + 6 * i);
  }

  /** Referential integrity holds: every book, stock and sale reference resolves. */
  lemma GeneratedConsistent(db: Database, publisherNames: seq<string>, bookTitles: seq<string>, shopNames: seq<string>,
                            stream: nat -> RandInt, start: nat)
    requires NonEmptyLists(publisherNames, bookTitles, shopNames)
    requires Generated(db, publisherNames, bookTitles, shopNames, stream, start)
    ensures Consistent(db)
  {
    var stockStart := start + |bookTitles|;
    var saleStart := stockStart + 1 + 3 * StockCount(stream, stockStart);
    forall i | 0 <= i < |db.books| ensures Resolves(db.books[i].publisher, |db.publishers|) {
      BookRowsResolve(bookTitles, |publisherNames|, stream, start, i);
    }
    forall i | 0 <= i < |db.stocks|
      ensures Resolves(db.stocks[i].book, |db.books|) && Resolves(db.stocks[i].shop, |db.shops|)
    {
      StockRowsResolve(|bookTitles|, |shopNames|, stream, stockStart, i);
    }
    forall i | 0 <= i < |db.sales| ensures Resolves(db.sales[i].stock, |db.stocks|) {
      SaleRowsResolve(|db.stocks|, stream, saleStart, i);
    }
  }

  /** A sale as the seed makes them: every column in its range and format. */
  predicate WellFormedSale(sale: Sale, stocks: nat) {
    Resolves(sale.stock, stocks) &&
    1 <= sale.count <= 5 &&
    (match ParsePrice(sale.price)
     case Some(amount) => 1 <= amount <= 5 && sale.price == PriceText(amount)
     case None => false) &&
    (match ParseDate(sale.date)
     case Some((y, m, d)) =>
       2020 <= y <= 2023 && 1 <= m <= 12 && 1 <= d <= 20 && sale.date == DateText(y, m, d)
     case None => false)
  }

  /** Each sale the fifth loop makes is well formed. */
  lemma SaleRowWellFormed(sale: Sale, stocks: nat, stream: nat -> RandInt, at: nat)
    requires stocks > 0 && sale == SaleRow(stocks, stream, at)
    ensures WellFormedSale(sale, stocks)
  {
    PriceRoundTrip(Draw(stream(at + 1), 5, 1));
    DateRoundTrip(Draw(stream(at + 2), 4, 2020), Draw(stream(at + 3), 12, 1), Draw(stream(at + 4), 20, 1));
  }

  lemma SaleRowsWellFormed(stocks: nat, stream: nat -> RandInt, start: nat, i: nat)
    requires stocks > 0 && i < |SaleRows(stocks, stream, start)|
    ensures WellFormedSale(SaleRows(stocks, stream, start)[i], stocks)
  {
    SaleRowWellFormed(SaleRows(stocks, stream, start)[i], stocks, stream, start + 1 + 6 * i);
  }

  /**
   * Between 1 and 5 sales; each names an existing stock row, has a count in
   * [1, 5], a price `"<a> $"` with a in [1, 5], and a date `"Y-M-D"` that
   * splits back into a year in [2020, 2023], a month in [1, 12] and a day in
   * [1, 20].
   */
  lemma GeneratedSales(db: Database, publisherNames: seq<string>, bookTitles: seq<string>, shopNames: seq<string>,
                       stream: nat -> RandInt, start: nat)
    requires NonEmptyLists(publisherNames, bookTitles, shopNames)
    requires Generated(db, publisherNames, bookTitles, shopNames, stream, start)
    ensures 1 <= |db.sales| <= 5
    ensures forall i :: 0 <= i < |db.sales| ==> WellFormedSale(db.sales[i], |db.stocks|)
  {
    var stockStart := start + |bookTitles|;
    var saleStart := stockStart + 1 + 3 * StockCount(stream, stockStart);
    forall i | 0 <= i < |db.sales| ensures WellFormedSale(db.sales[i], |db.stocks|) {
      SaleRowsWellFormed(|db.stocks|, stream, saleStart, i);
    }
  }
}
