/**
 * The publisher-shops query: for one publisher, visit each of its books and
 * each stock row of that book, and collect the names of the stock rows'
 * shops into a `std::set<std::string>`.
 */
module PublisherShops {
  import opened Schema
  import opened Store
  import opened OrderedSet

  /** The id of the book of stock row `i` (0-based position). */
  function BookOf(db: Database, i: nat): (b: Id)
    requires Consistent(db) && i < |db.stocks|
    ensures b <= |db.books|
  {
    db.stocks[i].book.value
  }

  /** The name of the shop of stock row `i`. */
  function ShopOf(db: Database, i: nat): string
    requires Consistent(db) && i < |db.stocks|
  {
    db.shops[db.stocks[i].shop.value - 1].name
  }

  /** Stock row `i` holds a book of publisher `p`. */
  predicate OfPublisher(db: Database, i: nat, p: Id)
    requires Consistent(db) && i < |db.stocks|
  {
    db.books[BookOf(db, i) - 1].publisher == Some(p)
  }

  /**
   * What the query means: the names of the shops of every stock row whose
   * book belongs to publisher `p`.
   */
  function ShopNamesFor(db: Database, p: Id): set<string>
    requires Consistent(db)
  {
    set i | 0 <= i < |db.stocks| && OfPublisher(db, i, p) :: ShopOf(db, i)
  }

  /**
   * The shops collected once the books with ids up to `books` are done and,
   * of book `books + 1`, the stock rows before position `stocks`.
   */
  ghost function Reached(db: Database, p: Id, books: nat, stocks: nat): set<string>
    requires Consistent(db)
  {
    set i | 0 <= i < |db.stocks| && OfPublisher(db, i, p) &&
            (BookOf(db, i) <= books || (BookOf(db, i) == books + 1 && i < stocks)) :: ShopOf(db, i)
  }

  /** The nested loops over the publisher's books and each book's stock rows. */
  method ShopsOf(store: Store, p: Id) returns (names: seq<string>)
    requires Consistent(store.Snapshot())
    ensures StrictlySorted(names)
    ensures Elements(names) == ShopNamesFor(store.Snapshot(), p)
  {
    ghost var db := store.Snapshot();
    names := Empty;
    var b := 0;
    while b < |store.books|
      invariant 0 <= b <= |store.books|
      invariant StrictlySorted(names)
      invariant Elements(names) == Reached(db, p, b, 0)
    {
      // `deal_publisher->books`: the books whose publisher is `p`.
      if store.books[b].publisher == Some(p) {
        var s := 0;
        while s < |store.stocks|
          invariant 0 <= s <= |store.stocks|
          invariant StrictlySorted(names)
          invariant Elements(names) == Reached(db, p, b, s)
        {
          // `book->stocks`: the stock rows whose book is this one.
          if store.stocks[s].book == Some(b + 1) {
            names := Insert(names, store.shops[store.stocks[s].shop.value - 1].name);
            assert Reached(db, p, b, s + 1) == Reached(db, p, b, s) + {ShopOf(db, s)};
          } else {
            assert Reached(db, p, b, s + 1) == Reached(db, p, b, s);
          }
          s := s + 1;
        }
        assert Reached(db, p, b, s) == Reached(db, p, b + 1, 0);
      } else {
        assert Reached(db, p, b, 0) == Reached(db, p, b + 1, 0);
      }
      b := b + 1;
    }
    assert Reached(db, p, b, 0) == ShopNamesFor(db, p);
  }

  /**
   * Looks up the publisher named at the 1-based `ordinal` of the name list,
   * then runs the nested loops for it.  When the name does not resolve to
   * exactly one row there is no publisher row to visit, and no names result.
   */
  method PublisherShops(store: Store, publisherNames: seq<string>, ordinal: int)
    returns (found: Found, names: seq<string>)
    requires 1 <= ordinal <= |publisherNames|
    requires Consistent(store.Snapshot())
    ensures Describes(PublisherNames(store.publishers), publisherNames[ordinal - 1], found)
    ensures StrictlySorted(names)
    ensures found.Unique? ==> Elements(names) == ShopNamesFor(store.Snapshot(), found.id)
    ensures !found.Unique? ==> names == []
  {
    found := store.FindPublisherByName(publisherNames[ordinal - 1]);
    if found.Unique? {
      names := ShopsOf(store, found.id);
    } else {
      names := Empty;
    }
  }

  /** A publisher none of whose books exists yields no shops. */
  lemma NoBooksNoShops(db: Database, p: Id)
    requires Consistent(db)
    requires forall b :: 0 <= b < |db.books| ==> db.books[b].publisher != Some(p)
    ensures ShopNamesFor(db, p) == {}
  {
    forall i | 0 <= i < |db.stocks| ensures !OfPublisher(db, i, p) {
      assert BookOf(db, i) - 1 < |db.books|;
    }
  }

  /** Every shop name the query yields is the name of a row of the shop table. */
  lemma ShopNamesAreShops(db: Database, p: Id, x: string)
    requires Consistent(db)
    requires x in ShopNamesFor(db, p)
    ensures x in ShopNames(db.shops)
  {
    var i :| 0 <= i < |db.stocks| && OfPublisher(db, i, p) && ShopOf(db, i) == x;
    assert ShopNames(db.shops)[db.stocks[i].shop.value - 1] == x;
  }

  /**
   * A shop reached through several stock rows is named once: position `i`
   * of the result holds a name no other position holds.
   */
  lemma NamedOnce(names: seq<string>, i: nat, j: nat)
    requires StrictlySorted(names) && i < |names| && j < |names| && i != j
    ensures names[i] != names[j]
  {
    if i < j {
      SortedHasNoDuplicates(names, i, j);
    } else {
      SortedHasNoDuplicates(names, j, i);
    }
  }

  /**
   * Publishers P1 and P2, one book T1 of P1, shops S1 and S2 and one stock
   * row (T1, S1): the query yields {S1} for P1 and nothing for P2.
   */
  lemma OneStockScenario()
    ensures var db := Database([Publisher("P1"), Publisher("P2")], [Book("T1", Some(1))],
                               [Shop("S1"), Shop("S2")], [Stock(Some(1), Some(1), 15)], []);
      Consistent(db) && ShopNamesFor(db, 1) == {"S1"} && ShopNamesFor(db, 2) == {}
  {
    var db := Database([Publisher("P1"), Publisher("P2")], [Book("T1", Some(1))],
                       [Shop("S1"), Shop("S2")], [Stock(Some(1), Some(1), 15)], []);
    assert OfPublisher(db, 0, 1) && ShopOf(db, 0) == "S1";
  }

  /** Shops reached as A, B, A are collected as the two names A, B. */
  lemma DuplicateShopScenario()
    ensures Insert(Insert(Insert(Empty, "A"), "B"), "A") == ["A", "B"]
  {
    assert Less("A", "B");
  }
}
