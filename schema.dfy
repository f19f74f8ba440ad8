/**
 * The five entity shapes of the book-sales schema (Publisher, Book, Shop,
 * Stock, Sale) and the in-memory database that holds one table of each.
 *
 * A row's id is its 1-based position in its table: the tables are created
 * fresh before seeding and nothing is ever deleted, so the backend's serial
 * ids are dense from 1.  A foreign key is an `Option<Id>`: `None` is the null
 * `Wt::Dbo::ptr` that a failed lookup leaves behind.
 */
module Schema {

  datatype Option<T> = None | Some(value: T)

  /** Store-assigned row identifier. */
  type Id = n: nat | n >= 1 witness 1

  /** Publishers own books through `Book.publisher`. */
  datatype Publisher = Publisher(name: string)

  /** A book belongs to one publisher. */
  datatype Book = Book(title: string, publisher: Option<Id>)

  /** Shops own stock rows through `Stock.shop`. */
  datatype Shop = Shop(name: string)

  /** One on-hand quantity of one book in one shop. */
  datatype Stock = Stock(book: Option<Id>, shop: Option<Id>, count: int)

  /** One sale of one stock row; price and date are stored as text. */
  datatype Sale = Sale(price: string, date: string, stock: Option<Id>, count: int)

  /** The contents of the five tables. */
  datatype Database = Database(
    publishers: seq<Publisher>,
    books: seq<Book>,
    shops: seq<Shop>,
    stocks: seq<Stock>,
    sales: seq<Sale>)

  const EmptyDatabase := Database([], [], [], [], [])

  /** A foreign key that names an existing row of a table with `rows` rows. */
  predicate Resolves(key: Option<Id>, rows: nat) {
    key.Some? && key.value <= rows
  }

  /**
   * Referential integrity: every belongs-to reference (book.publisher,
   * stock.book, stock.shop, sale.stock) names an existing row.
   */
  predicate Consistent(db: Database) {
    (forall i :: 0 <= i < |db.books| ==> Resolves(db.books[i].publisher, |db.publishers|)) &&
    (forall i :: 0 <= i < |db.stocks| ==>
       Resolves(db.stocks[i].book, |db.books|) && Resolves(db.stocks[i].shop, |db.shops|)) &&
    (forall i :: 0 <= i < |db.sales| ==> Resolves(db.sales[i].stock, |db.stocks|))
  }

  /** The `name` column of the publisher table. */
  function PublisherNames(ps: seq<Publisher>): (names: seq<string>)
    ensures |names| == |ps|
    ensures forall i :: 0 <= i < |ps| ==> names[i] == ps[i].name
  {
    seq(|ps|, i requires 0 <= i < |ps| => ps[i].name)
  }

  /** The `title` column of the book table. */
  function BookTitles(bs: seq<Book>): (titles: seq<string>)
    ensures |titles| == |bs|
    ensures forall i :: 0 <= i < |bs| ==> titles[i] == bs[i].title
  {
    seq(|bs|, i requires 0 <= i < |bs| => bs[i].title)
  }

  /** The `name` column of the shop table. */
  function ShopNames(ss: seq<Shop>): (names: seq<string>)
    ensures |names| == |ss|
    ensures forall i :: 0 <= i < |ss| ==> names[i] == ss[i].name
  {
    seq(|ss|, i requires 0 <= i < |ss| => ss[i].name)
  }

  /** No entry of the list occurs twice. */
  predicate Distinct(s: seq<string>) {
    forall i, j :: 0 <= i < j < |s| ==> s[i] != s[j]
  }
}
