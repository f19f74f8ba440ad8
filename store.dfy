/**
 * The store gateway: five tables that grow by insertion, equality lookup of a
 * row by a text column, and lookup of a stock row by id.
 */
module Store {
  import opened Schema

  /**
   * What converting a `find<C>().where("col = ?")` query to a single
   * `ptr<C>` yields: a null pointer when no row matches, the matching row,
   * or an error when the match is not unique.
   */
  datatype Found = Missing | Unique(id: Id) | Ambiguous

  /** `r` is the outcome of looking up `key` in the column `keys`. */
  predicate Describes(keys: seq<string>, key: string, r: Found) {
    (r.Missing? <==> key !in keys) &&
    (r.Unique? ==>
       r.id <= |keys| && keys[r.id - 1] == key &&
       forall j :: 0 <= j < |keys| && keys[j] == key ==> j == r.id - 1) &&
    (r.Ambiguous? ==> exists j, k :: 0 <= j < k < |keys| && keys[j] == key && keys[k] == key)
  }

  /** Scans a column for the rows equal to `key`. */
  method Find(keys: seq<string>, key: string) returns (r: Found)
    ensures Describes(keys, key, r)
  {
    r := Missing;
    var i := 0;
    while i < |keys|
      invariant 0 <= i <= |keys|
      invariant r.Missing? <==> key !in keys[..i]
      invariant r.Unique? ==>
        r.id <= i && keys[r.id - 1] == key &&
        forall j :: 0 <= j < i && keys[j] == key ==> j == r.id - 1
      invariant r.Ambiguous? ==> exists j, k :: 0 <= j < k < i && keys[j] == key && keys[k] == key
    {
      if keys[i] == key {
        match r
        case Missing => r := Unique(i + 1);
        case Unique(first) =>
          assert keys[first - 1] == key && keys[i] == key;
          r := Ambiguous;
        case Ambiguous =>
      }
      assert keys[..i + 1] == keys[..i] + [keys[i]];
      i := i + 1;
    }
    assert keys[..i] == keys;
  }

  /** In a column without repeats, every entry is found at its own position. */
  lemma FindDistinct(keys: seq<string>, i: nat, r: Found)
    requires Distinct(keys) && i < |keys|
    requires Describes(keys, keys[i], r)
    ensures r == Unique(i + 1)
  {
  }

  /** The five tables, in the order the schema maps them. */
  class Store {
    var publishers: seq<Publisher>
    var books: seq<Book>
    var shops: seq<Shop>
    var stocks: seq<Stock>
    var sales: seq<Sale>

    /** The current contents of all five tables. */
    function Snapshot(): (db: Database)
      reads this
      ensures db.publishers == publishers && db.books == books && db.shops == shops
      ensures db.stocks == stocks && db.sales == sales
    {
      Database(publishers, books, shops, stocks, sales)
    }

    /** Freshly created tables: all five are empty. */
    constructor ()
      ensures Snapshot() == EmptyDatabase
    {
      publishers, books, shops, stocks, sales := [], [], [], [], [];
    }

    /** Inserts a publisher; its id is the new table length. */
    method AddPublisher(p: Publisher) returns (id: Id)
      modifies this
      ensures Snapshot() == old(Snapshot()).(publishers := old(publishers) + [p])
      ensures id == |publishers| && publishers[id - 1] == p
    {
      publishers := publishers + [p];
      id := |publishers|;
    }

    /** Inserts a book; its id is the new table length. */
    method AddBook(b: Book) returns (id: Id)
      modifies this
      ensures Snapshot() == old(Snapshot()).(books := old(books) + [b])
      ensures id == |books| && books[id - 1] == b
    {
      books := books + [b];
      id := |books|;
    }

    /** Inserts a shop; its id is the new table length. */
    method AddShop(s: Shop) returns (id: Id)
      modifies this
      ensures Snapshot() == old(Snapshot()).(shops := old(shops) + [s])
      ensures id == |shops| && shops[id - 1] == s
    {
      shops := shops + [s];
      id := |shops|;
    }

    /** Inserts a stock row; its id is the new table length. */
    method AddStock(s: Stock) returns (id: Id)
      modifies this
      ensures Snapshot() == old(Snapshot()).(stocks := old(stocks) + [s])
      ensures id == |stocks| && stocks[id - 1] == s
    {
      stocks := stocks + [s];
      id := |stocks|;
    }

    /** Inserts a sale; its id is the new table length. */
    method AddSale(s: Sale) returns (id: Id)
      modifies this
      ensures Snapshot() == old(Snapshot()).(sales := old(sales) + [s])
      ensures id == |sales| && sales[id - 1] == s
    {
      sales := sales + [s];
      id := |sales|;
    }

    /** `find<Publisher>().where("name = ?")`. */
    method FindPublisherByName(name: string) returns (r: Found)
      ensures Describes(PublisherNames(publishers), name, r)
    {
      r := Find(PublisherNames(publishers), name);
    }

    /** `find<Book>().where("title = ?")`. */
    method FindBookByTitle(title: string) returns (r: Found)
      ensures Describes(BookTitles(books), title, r)
    {
      r := Find(BookTitles(books), title);
    }

    /** `find<Shop>().where("name = ?")`. */
    method FindShopByName(name: string) returns (r: Found)
      ensures Describes(ShopNames(shops), name, r)
    {
      r := Find(ShopNames(shops), name);
    }

    /** `find<Stock>().where("id = ?")`: a null pointer unless the id exists. */
    method FindStockById(id: int) returns (r: Option<Id>)
      ensures r.Some? <==> 1 <= id <= |stocks|
      ensures r.Some? ==> r.value == id
    {
      if 1 <= id <= |stocks| {
        r := Some(id);
      } else {
        r := None;
      }
    }

    /** `session.find<Stock>()` followed by `size()`: the number of stock rows. */
    method CountStocks() returns (n: nat)
      ensures n == |stocks|
    {
      n := |stocks|;
    }
  }
}
