/**
 * The booking list store (package `viewmodel`): one ordered list of bookings,
 * empty at start, replaced as a whole by every add and every delete.
 */
module ViewModel {
  import opened Model

  /**
   * The list `s` with every entry equal to `e` dropped and the others kept in
   * their order: the `filterNot { it == e }` copy that a delete installs.
   */
  function Without(s: seq<BookingEntry>, e: BookingEntry): (r: seq<BookingEntry>)
    ensures forall x :: x in r <==> x in s && x != e
    ensures multiset(r) == multiset(s)[e := 0]
  {
    if s == [] then []
    else
      assert s == [s[0]] + s[1..];
      if s[0] == e then Without(s[1..], e) else [s[0]] + Without(s[1..], e)
  }

  /** `r` can be obtained from `s` by dropping some of its elements. */
  ghost predicate IsSubsequence(r: seq<BookingEntry>, s: seq<BookingEntry>)
    decreases |s|
  {
    if r == [] then true
    else if s == [] then false
    else (r[0] == s[0] && IsSubsequence(r[1..], s[1..])) || IsSubsequence(r, s[1..])
  }

  /** After a delete the list shrinks by exactly the number of occurrences removed. */
  lemma WithoutLength(s: seq<BookingEntry>, e: BookingEntry)
    ensures |Without(s, e)| == |s| - multiset(s)[e]
  {
    var m := multiset(s);
    assert m == m[e := 0] + multiset{}[e := m[e]];
  }

  /** Filtering distributes over concatenation, so relative order is kept. */
  lemma {:induction false} WithoutAppend(a: seq<BookingEntry>, b: seq<BookingEntry>, e: BookingEntry)
    ensures Without(a + b, e) == Without(a, e) + Without(b, e)
  {
    if a == [] {
      assert a + b == b;
    } else {
      assert (a + b)[0] == a[0];
      assert (a + b)[1..] == a[1..] + b;
      WithoutAppend(a[1..], b, e);
    }
  }

  /** Deleting an entry that is not in the list leaves the list unchanged. */
  lemma {:induction false} WithoutAbsent(s: seq<BookingEntry>, e: BookingEntry)
    requires e !in s
    ensures Without(s, e) == s
  {
    if s != [] {
      assert s[1..] == s[|s| - |s[1..]|..];
      assert e !in s[1..];
      WithoutAbsent(s[1..], e);
    }
  }

  /** Delete is idempotent: deleting `e` a second time changes nothing. */
  lemma WithoutIdempotent(s: seq<BookingEntry>, e: BookingEntry)
    ensures Without(Without(s, e), e) == Without(s, e)
  {
    WithoutAbsent(Without(s, e), e);
  }

  /** The result of a delete is a subsequence of the list before it. */
  lemma {:induction false} WithoutIsSubsequence(s: seq<BookingEntry>, e: BookingEntry)
    ensures IsSubsequence(Without(s, e), s)
  {
    if s != [] {
      WithoutIsSubsequence(s[1..], e);
      if s[0] != e {
        var r := Without(s, e);
        assert r[0] == s[0] && r[1..] == Without(s[1..], e);
      }
    }
  }

  /** A subsequence never holds more copies of an entry than the list it comes from. */
  lemma {:induction false} SubsequenceMultiset(r: seq<BookingEntry>, s: seq<BookingEntry>)
    requires IsSubsequence(r, s)
    ensures multiset(r) <= multiset(s)
    decreases |s|
  {
    if r != [] {
      assert s == [s[0]] + s[1..];
      if r[0] == s[0] && IsSubsequence(r[1..], s[1..]) {
        SubsequenceMultiset(r[1..], s[1..]);
        assert r == [r[0]] + r[1..];
      } else {
        SubsequenceMultiset(r, s[1..]);
      }
    }
  }

  /** Removing `e` from the multiset of a list, split at its first element. */
  lemma DropHead(s: seq<BookingEntry>, e: BookingEntry)
    requires s != []
    ensures s[0] == e ==> multiset(s)[e := 0] == multiset(s[1..])[e := 0]
    ensures s[0] != e ==> multiset(s)[e := 0] == multiset(s[1..])[e := 0] + multiset{s[0]}
  {
    assert s == [s[0]] + s[1..];
  }

  /** Cancelling one known element on both sides of a multiset equation. */
  lemma ConsCancel(r: seq<BookingEntry>, m: multiset<BookingEntry>)
    requires r != []
    requires multiset(r) == m + multiset{r[0]}
    ensures multiset(r[1..]) == m
  {
    assert r == [r[0]] + r[1..];
    forall y ensures multiset(r[1..])[y] == m[y] {
      assert multiset(r)[y] == multiset(r[1..])[y] + multiset{r[0]}[y];
    }
  }

  /**
   * Independent characterisation of delete: the only subsequence of `s` that
   * holds every entry other than `e` as often as `s` does (and no `e`) is
   * `Without(s, e)`.
   */
  lemma {:induction false} WithoutUnique(s: seq<BookingEntry>, e: BookingEntry, r: seq<BookingEntry>)
    requires IsSubsequence(r, s)
    requires multiset(r) == multiset(s)[e := 0]
    ensures r == Without(s, e)
    decreases |s|
  {
    if s == [] {
      assert |multiset(r)| == 0;
    } else {
      DropHead(s, e);
      var tail := multiset(s[1..])[e := 0];
      if r != [] && r[0] == s[0] && IsSubsequence(r[1..], s[1..]) {
        assert r[0] in multiset(r);
        ConsCancel(r, tail);
        WithoutUnique(s[1..], e, r[1..]);
      } else {
        assert r == [] || IsSubsequence(r, s[1..]);
        if r != [] {
          SubsequenceMultiset(r, s[1..]);
        }
        if s[0] != e {
          assert false;
        }
        WithoutUnique(s[1..], e, r);
      }
    }
  }

  /** Adding an entry and then deleting it is the same as only deleting it. */
  lemma AddThenDelete(s: seq<BookingEntry>, e: BookingEntry)
    ensures Without(s + [e], e) == Without(s, e)
  {
    WithoutAppend(s, [e], e);
  }

  /** Deletes of any two values may be applied in either order. */
  lemma {:induction false} WithoutCommutes(s: seq<BookingEntry>, a: BookingEntry, b: BookingEntry)
    ensures Without(Without(s, a), b) == Without(Without(s, b), a)
  {
    if s != [] {
      WithoutCommutes(s[1..], a, b);
    }
  }

  /**
   * The store. The observable-flow wrapper around the list is reduced to a
   * plain field that every operation reassigns as a whole.
   */
  class SharedViewModel {
    var bookingsEntries: seq<BookingEntry>

    /** The store starts with the empty list. */
    constructor ()
      ensures bookingsEntries == []
    {
      bookingsEntries := [];
    }

    /**
     * Appends a new entry built from the three arguments. There is no
     * validation: a blank name or a departure before the arrival is stored too.
     */
    method AddBookingEntry(arrivalDate: Date, departureDate: Date, name: string)
      modifies this
      ensures bookingsEntries == old(bookingsEntries) + [BookingEntry(arrivalDate, departureDate, name)]
      ensures |bookingsEntries| == |old(bookingsEntries)| + 1
      ensures bookingsEntries[..|old(bookingsEntries)|] == old(bookingsEntries)
    {
      var newEntry := BookingEntry(arrivalDate, departureDate, name);
      bookingsEntries := bookingsEntries + [newEntry];
    }

    /**
     * Replaces the list with its copy that drops every entry equal to
     * `bookingEntry`; an absent entry is not an error.
     */
    method DeleteBookingEntry(bookingEntry: BookingEntry)
      modifies this
      ensures bookingsEntries == Without(old(bookingsEntries), bookingEntry)
      ensures bookingEntry !in bookingsEntries
      ensures IsSubsequence(bookingsEntries, old(bookingsEntries))
      ensures |bookingsEntries| == |old(bookingsEntries)| - multiset(old(bookingsEntries))[bookingEntry]
      ensures bookingEntry !in old(bookingsEntries) ==> bookingsEntries == old(bookingsEntries)
    {
      WithoutIsSubsequence(bookingsEntries, bookingEntry);
      WithoutLength(bookingsEntries, bookingEntry);
      if bookingEntry !in bookingsEntries {
        WithoutAbsent(bookingsEntries, bookingEntry);
      }
      bookingsEntries := Without(bookingsEntries, bookingEntry);
    }
  }

  /**
   * A client of the store: two adds then a delete, a delete on an empty store,
   * and one delete removing a doubled entry.
   */
  method Scenarios(d1: Date, d2: Date, d3: Date, d4: Date, other: BookingEntry)
  {
    var vm := new SharedViewModel();
    vm.AddBookingEntry(d1, d2, "Alice");
    assert vm.bookingsEntries == [BookingEntry(d1, d2, "Alice")];
    vm.AddBookingEntry(d3, d4, "Bob");
    assert vm.bookingsEntries == [BookingEntry(d1, d2, "Alice"), BookingEntry(d3, d4, "Bob")];
    vm.DeleteBookingEntry(BookingEntry(d1, d2, "Alice"));
    assert vm.bookingsEntries == [BookingEntry(d3, d4, "Bob")];

    var empty := new SharedViewModel();
    empty.DeleteBookingEntry(other);
    assert empty.bookingsEntries == [];

    var twice := new SharedViewModel();
    twice.AddBookingEntry(d1, d2, "Eve");
    twice.AddBookingEntry(d1, d2, "Eve");
    assert |twice.bookingsEntries| == 2;
    twice.DeleteBookingEntry(BookingEntry(d1, d2, "Eve"));
    assert twice.bookingsEntries == [];
  }
}
