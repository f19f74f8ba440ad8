/**
 * The whole run on freshly created tables: seed with the program's fixed
 * lists and the injected random stream, test the ordinal the user gave, and
 * answer the publisher-shops query for it.
 */
module Program {
  import opened Schema
  import opened Store
  import opened Random
  import opened Seeding
  import opened OrderedSet
  import opened PublisherShops
  import opened Ordinal

  const PublisherNameList: seq<string> := ["АСТ", "Эскмо"]

  const BookTitleList: seq<string> :=
    ["1984", "Три товарища", "Рецидивист", "Алиса в стране чудес", "Война и мир"]

  const ShopNameList: seq<string> :=
    ["Читай город", "Лабиринт", "Литрес", "Республика", "Москвоский дом книги", "Букбридж"]

  /** The fixed lists are non-empty and free of repeats, as seeding needs. */
  lemma FixedListsUsable()
    ensures ListsUsable(PublisherNameList, BookTitleList, ShopNameList)
  {
  }

  /**
   * Seeds the store, then, when the ordinal passes the (corrected) range
   * test, returns the sorted shop names for that publisher.  A refused
   * ordinal would make the program prompt again; here it yields no answer.
   */
  method Run(stream: nat -> RandInt, ordinal: Int32) returns (db: Database, accepted: bool, names: seq<string>)
    ensures Generated(db, PublisherNameList, BookTitleList, ShopNameList, stream, 0)
    ensures Consistent(db)
    ensures accepted <==> 1 <= ordinal <= |PublisherNameList|
    ensures accepted ==> StrictlySorted(names) && Elements(names) == ShopNamesFor(db, ordinal)
    ensures accepted ==> forall x :: x in names ==> x in ShopNameList
    ensures !accepted ==> names == []
  {
    FixedListsUsable();
    var store := new Store();
    var rng := new Rng(stream);
    Seed(store, rng, PublisherNameList, BookTitleList, ShopNameList);
    db := store.Snapshot();
    GeneratedConsistent(db, PublisherNameList, BookTitleList, ShopNameList, stream, 0);
    GeneratedVerbatim(db, PublisherNameList, BookTitleList, ShopNameList, stream, 0);
    AcceptsOrdinalExactly(ordinal, |PublisherNameList|);
    accepted := AcceptsOrdinal(ordinal, |PublisherNameList|);
    names := Empty;
    if accepted {
      var found;
      found, names := PublisherShops.PublisherShops(store, PublisherNameList, ordinal);
      FindDistinct(PublisherNames(store.publishers), ordinal - 1, found);
      forall x | x in names ensures x in ShopNameList {
        assert x in Elements(names);
        ShopNamesAreShops(db, ordinal, x);
      }
    }
  }
}
