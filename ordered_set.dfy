/**
 * `std::set<std::string>` as a value: a strictly increasing sequence of
 * strings under `std::string`'s lexicographic order (characters compared by
 * code, a proper prefix before its extensions).  Iterating the set visits
 * the sequence from first to last.
 */
module OrderedSet {

  /** `a < b` for `std::string`. */
  predicate Less(a: string, b: string)
    ensures Less(a, b) ==> |b| > 0
    ensures |a| == 0 && |b| > 0 ==> Less(a, b)
  {
    |b| > 0 && (|a| == 0 || a[0] < b[0] || (a[0] == b[0] && Less(a[1..], b[1..])))
  }

  lemma {:induction false} LessIrreflexive(a: string)
    ensures !Less(a, a)
  {
    if |a| > 0 {
      LessIrreflexive(a[1..]);
    }
  }

  /** A proper prefix sorts before its extensions. */
  lemma {:induction false} PrefixFirst(a: string, b: string)
    requires |a| < |b| && a == b[..|a|]
    ensures Less(a, b)
  {
    if |a| > 0 {
      assert a[1..] == b[1..][..|a| - 1];
      PrefixFirst(a[1..], b[1..]);
    }
  }

  lemma {:induction false} LessTransitive(a: string, b: string, c: string)
    requires Less(a, b) && Less(b, c)
    ensures Less(a, c)
  {
    if |a| > 0 && a[0] == b[0] && b[0] == c[0] {
      LessTransitive(a[1..], b[1..], c[1..]);
    }
  }

  /** Two different strings are ordered one way or the other. */
  lemma {:induction false} LessTotal(a: string, b: string)
    requires a != b
    ensures Less(a, b) || Less(b, a)
  {
    if |a| > 0 && |b| > 0 && a[0] == b[0] {
      assert a == [a[0]] + a[1..] && b == [b[0]] + b[1..];
      LessTotal(a[1..], b[1..]);
    }
  }

  /** Every earlier element is below every later one. */
  predicate StrictlySorted(s: seq<string>) {
    forall i, j :: 0 <= i < j < |s| ==> Less(s[i], s[j])
  }

  function Elements(s: seq<string>): set<string> {
    set x | x in s
  }

  lemma NoElements(s: seq<string>)
    ensures Elements(s) == {} <==> s == []
  {
    if s != [] {
      assert s[0] in Elements(s);
    }
  }

  /** A strictly sorted sequence holds each element once. */
  lemma SortedHasNoDuplicates(s: seq<string>, i: nat, j: nat)
    requires StrictlySorted(s) && i < j < |s|
    ensures s[i] != s[j]
  {
    LessIrreflexive(s[i]);
  }

  /** The empty set. */
  const Empty: seq<string> := []

  /** `std::set::insert`: adds `x` at its place unless it is already there. */
  function Insert(s: seq<string>, x: string): (t: seq<string>)
    requires StrictlySorted(s)
    ensures StrictlySorted(t)
    ensures Elements(t) == Elements(s) + {x}
    ensures x in s ==> t == s
  {
    if |s| == 0 then
      [x]
    else if x == s[0] then
      s
    else if Less(x, s[0]) then
      InsertFront(s, x);
      [x] + s
    else
      var rest := Insert(s[1..], x);
      InsertAfterHead(s, x, rest);
      [s[0]] + rest
  }

  /** An `x` below the least element goes in front, and was not there before. */
  lemma InsertFront(s: seq<string>, x: string)
    requires StrictlySorted(s) && |s| > 0 && Less(x, s[0])
    ensures StrictlySorted([x] + s) && x !in s
  {
    forall j | 0 < j < |s| ensures Less(x, s[j]) {
      LessTransitive(x, s[0], s[j]);
    }
    LessIrreflexive(x);
  }

  /**
   * An `x` above the least element goes into the tail: the head stays below
   * the tail with `x` inserted.
   */
  lemma InsertAfterHead(s: seq<string>, x: string, rest: seq<string>)
    requires StrictlySorted(s) && |s| > 0 && x != s[0] && !Less(x, s[0])
    requires StrictlySorted(rest) && Elements(rest) == Elements(s[1..]) + {x}
    ensures StrictlySorted([s[0]] + rest)
    ensures Elements([s[0]] + rest) == Elements(s) + {x}
    ensures x in s ==> x in s[1..]
  {
    LessTotal(x, s[0]);
    assert s == [s[0]] + s[1..];
    assert Elements(s) == {s[0]} + Elements(s[1..]);
    assert Elements([s[0]] + rest) == {s[0]} + Elements(rest);
    forall j | 0 <= j < |rest| ensures Less(s[0], rest[j]) {
      assert rest[j] in Elements(rest);
    }
  }

  /** The two orders agree: one and the same strictly sorted sequence per set. */
  lemma {:induction false} SortedUnique(s: seq<string>, t: seq<string>)
    requires StrictlySorted(s) && StrictlySorted(t)
    requires Elements(s) == Elements(t)
    ensures s == t
  {
    if |s| > 0 && |t| > 0 {
      // The first element of each is the least of the common set.
      if s[0] != t[0] {
        assert t[0] in Elements(s);
        var i :| 0 <= i < |s| && s[i] == t[0];
        assert s[0] in Elements(t);
        var j :| 0 <= j < |t| && t[j] == s[0];
        assert i > 0 && j > 0;
        LessTransitive(s[0], t[0], s[0]);
        LessIrreflexive(s[0]);
      }
      assert Elements(s[1..]) == Elements(s) - {s[0]} by {
        forall k | 0 < k < |s| ensures s[k] != s[0] { LessIrreflexive(s[0]); }
      }
      assert Elements(t[1..]) == Elements(t) - {t[0]} by {
        forall k | 0 < k < |t| ensures t[k] != t[0] { LessIrreflexive(t[0]); }
      }
      SortedUnique(s[1..], t[1..]);
      assert s == [s[0]] + s[1..] && t == [t[0]] + t[1..];
    } else {
      // One of them is empty, so the common set is, and so is the other.
      NoElements(s);
      NoElements(t);
    }
  }
}
