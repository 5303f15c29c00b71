/**
 * The persistent top-five leaderboard: `saveScore` appends the new entry,
 * sorts the list by descending score and keeps the first five;
 * `getLeaderboard` reads the list back, empty when nothing was stored.
 */
module Leaderboard {
  import opened Optional

  /** One leaderboard line: whole seconds survived and an opaque display date. */
  datatype Entry = Entry(score: int, date: string)

  /** How many entries the leaderboard keeps. */
  const Capacity: nat := 5

  predicate SortedDesc(s: seq<Entry>) {
    forall i, j :: 0 <= i < j < |s| ==> s[i].score >= s[j].score
  }

  function Min(a: int, b: int): int {
    if a <= b then a else b
  }

  /** How many entries of `s` score at least `v`. */
  function CountAtLeast(s: seq<Entry>, v: int): (n: nat)
    ensures n <= |s|
  {
    if s == [] then 0 else (if s[0].score >= v then 1 else 0) + CountAtLeast(s[1..], v)
  }

  /** How many entries of `s` score strictly more than `v`. */
  function CountAbove(s: seq<Entry>, v: int): (n: nat)
    ensures n <= |s|
  {
    if s == [] then 0 else (if s[0].score > v then 1 else 0) + CountAbove(s[1..], v)
  }

  /** The entries of `s` that score exactly `v`, in their order in `s`. */
  function Ties(s: seq<Entry>, v: int): seq<Entry> {
    if s == [] then [] else (if s[0].score == v then [s[0]] else []) + Ties(s[1..], v)
  }

  /** One step of a stable insertion sort: `e` goes after every entry scoring at least as much. */
  function Insert(s: seq<Entry>, e: Entry): (r: seq<Entry>)
    ensures |r| == |s| + 1
  {
    if s == [] then [e]
    else if s[0].score >= e.score then [s[0]] + Insert(s[1..], e)
    else [e] + s
  }

  /**
   * `sort((a, b) => b.score - a.score)`: descending by score, and stable, as
   * `Array.prototype.sort` is; later entries are inserted after earlier ties.
   */
  function Sort(s: seq<Entry>): (r: seq<Entry>)
    ensures |r| == |s|
  {
    if s == [] then [] else Insert(Sort(s[..|s| - 1]), s[|s| - 1])
  }

  /** The list `saveScore` stores, given the list it read and the new entry. */
  function SaveList(stored: seq<Entry>, e: Entry): (r: seq<Entry>)
    ensures |r| == Min(Capacity, |stored| + 1)
  {
    var all := Sort(stored + [e]);
    all[..Min(Capacity, |all|)]
  }

  // ---------------------------------------------------------------------------
  // The sort is a sorted, stable permutation

  lemma {:induction false} InsertPermutes(s: seq<Entry>, e: Entry)
    ensures multiset(Insert(s, e)) == multiset(s) + multiset{e}
  {
    if s != [] && s[0].score >= e.score {
      InsertPermutes(s[1..], e);
      assert s == [s[0]] + s[1..];
    }
  }

  lemma {:induction false} InsertSorted(s: seq<Entry>, e: Entry)
    requires SortedDesc(s)
    ensures SortedDesc(Insert(s, e))
  {
    if s != [] && s[0].score >= e.score {
      InsertSorted(s[1..], e);
      InsertPermutes(s[1..], e);
      var r := Insert(s[1..], e);
      forall x | x in r
        ensures x.score <= s[0].score
      {
        assert x in multiset(r);
      }
    }
  }

  /** The sort returns a rearrangement of its input. */
  lemma {:induction false} SortPermutes(s: seq<Entry>)
    ensures multiset(Sort(s)) == multiset(s)
  {
    if s != [] {
      var init, last := s[..|s| - 1], s[|s| - 1];
      calc {
        multiset(Sort(s));
        multiset(Insert(Sort(init), last));
        { InsertPermutes(Sort(init), last); }
        multiset(Sort(init)) + multiset{last};
        { SortPermutes(init); }
        multiset(init) + multiset{last};
        multiset(init + [last]);
        { assert s == init + [last]; }
        multiset(s);
      }
    }
  }

  /** The sort orders by descending score. */
  lemma {:induction false} SortSorts(s: seq<Entry>)
    ensures SortedDesc(Sort(s))
  {
    if s != [] {
      SortSorts(s[..|s| - 1]);
      InsertSorted(Sort(s[..|s| - 1]), s[|s| - 1]);
    }
  }

  lemma {:induction false} TiesAppend(a: seq<Entry>, b: seq<Entry>, v: int)
    ensures Ties(a + b, v) == Ties(a, v) + Ties(b, v)
  {
    if a != [] {
      TiesAppend(a[1..], b, v);
      var head := if a[0].score == v then [a[0]] else [];
      assert (a + b)[0] == a[0] && (a + b)[1..] == a[1..] + b;
      calc {
        Ties(a + b, v);
        head + Ties(a[1..] + b, v);
        head + (Ties(a[1..], v) + Ties(b, v));
        (head + Ties(a[1..], v)) + Ties(b, v);
      }
    } else {
      assert a + b == b;
    }
  }

  lemma {:induction false} NoTiesBelow(s: seq<Entry>, v: int)
    requires forall i :: 0 <= i < |s| ==> s[i].score < v
    ensures Ties(s, v) == []
  {
    if s != [] {
      NoTiesBelow(s[1..], v);
    }
  }

  lemma {:induction false} InsertKeepsTies(s: seq<Entry>, e: Entry, v: int)
    requires SortedDesc(s)
    ensures Ties(Insert(s, e), v) == Ties(s, v) + (if e.score == v then [e] else [])
  {
    if s == [] {
    } else if s[0].score >= e.score {
      InsertKeepsTies(s[1..], e, v);
      TiesAppend([s[0]], Insert(s[1..], e), v);
      TiesAppend([s[0]], s[1..], v);
      assert s == [s[0]] + s[1..];
    } else {
      TiesAppend([e], s, v);
      if e.score == v {
        NoTiesBelow(s, v);
      }
    }
  }

  /**
   * The sort is stable: the entries of any one score keep the order they had
   * in the input.
   */
  lemma {:induction false} SortStable(s: seq<Entry>, v: int)
    ensures Ties(Sort(s), v) == Ties(s, v)
  {
    if s != [] {
      var init, last := s[..|s| - 1], s[|s| - 1];
      SortStable(init, v);
      SortSorts(init);
      InsertKeepsTies(Sort(init), last, v);
      TiesAppend(init, [last], v);
      assert s == init + [last];
    }
  }

  /** Sorting an already sorted list changes nothing. */
  lemma {:induction false} SortFixesSorted(s: seq<Entry>)
    requires SortedDesc(s)
    ensures Sort(s) == s
  {
    if s != [] {
      var init, last := s[..|s| - 1], s[|s| - 1];
      SortFixesSorted(init);
      InsertAtEnd(init, last);
      assert s == init + [last];
    }
  }

  lemma {:induction false} InsertAtEnd(s: seq<Entry>, e: Entry)
    requires forall i :: 0 <= i < |s| ==> s[i].score >= e.score
    ensures Insert(s, e) == s + [e]
  {
    if s != [] {
      InsertAtEnd(s[1..], e);
      assert s == [s[0]] + s[1..];
    }
  }

  // ---------------------------------------------------------------------------
  // Where the new entry lands

  /** In a sorted list, the entries scoring at least `v` are exactly the first `CountAtLeast`. */
  lemma {:induction false} AtLeastPrefix(s: seq<Entry>, v: int, i: int)
    requires SortedDesc(s) && 0 <= i < |s|
    ensures s[i].score >= v <==> i < CountAtLeast(s, v)
  {
    if i > 0 {
      AtLeastPrefix(s[1..], v, i - 1);
      if s[0].score < v {
        NoneAtLeast(s[1..], v);
      }
    } else if s[0].score < v {
      NoneAtLeast(s[1..], v);
    }
  }

  lemma {:induction false} NoneAtLeast(s: seq<Entry>, v: int)
    requires forall i :: 0 <= i < |s| ==> s[i].score < v
    ensures CountAtLeast(s, v) == 0
  {
    if s != [] {
      NoneAtLeast(s[1..], v);
    }
  }

  /** Likewise for the entries scoring strictly more than `v`. */
  lemma {:induction false} AbovePrefix(s: seq<Entry>, v: int, i: int)
    requires SortedDesc(s) && 0 <= i < |s|
    ensures s[i].score > v <==> i < CountAbove(s, v)
  {
    if i > 0 {
      AbovePrefix(s[1..], v, i - 1);
      if s[0].score <= v {
        NoneAbove(s[1..], v);
      }
    } else if s[0].score <= v {
      NoneAbove(s[1..], v);
    }
  }

  lemma {:induction false} NoneAbove(s: seq<Entry>, v: int)
    requires forall i :: 0 <= i < |s| ==> s[i].score <= v
    ensures CountAbove(s, v) == 0
  {
    if s != [] {
      NoneAbove(s[1..], v);
    }
  }

  /** Inserting into a sorted list puts `e` right after the entries scoring at least as much. */
  lemma {:induction false} InsertPosition(s: seq<Entry>, e: Entry)
    requires SortedDesc(s)
    ensures var k := CountAtLeast(s, e.score);
      Insert(s, e) == s[..k] + [e] + s[k..]
  {
    if s != [] {
      if s[0].score >= e.score {
        var t := s[1..];
        InsertPosition(t, e);
        var k := CountAtLeast(t, e.score);
        assert CountAtLeast(s, e.score) == k + 1;
        calc {
          Insert(s, e);
          [s[0]] + Insert(t, e);
          [s[0]] + (t[..k] + [e] + t[k..]);
          ([s[0]] + t[..k]) + [e] + t[k..];
          { assert [s[0]] + t[..k] == s[..k + 1]; assert t[k..] == s[k + 1..]; }
          s[..k + 1] + [e] + s[k + 1..];
        }
      } else {
        NoneAtLeast(s[1..], e.score);
      }
    }
  }

  lemma {:induction false} CountsAppend(a: seq<Entry>, b: seq<Entry>, v: int)
    ensures CountAtLeast(a + b, v) == CountAtLeast(a, v) + CountAtLeast(b, v)
    ensures CountAbove(a + b, v) == CountAbove(a, v) + CountAbove(b, v)
  {
    if a != [] {
      CountsAppend(a[1..], b, v);
      assert a + b == [a[0]] + (a[1..] + b);
      assert (a + b)[0] == a[0] && (a + b)[1..] == a[1..] + b;
    } else {
      assert a + b == b;
    }
  }

  lemma {:induction false} InsertCounts(s: seq<Entry>, e: Entry, v: int)
    ensures CountAtLeast(Insert(s, e), v) == CountAtLeast(s, v) + (if e.score >= v then 1 else 0)
    ensures CountAbove(Insert(s, e), v) == CountAbove(s, v) + (if e.score > v then 1 else 0)
  {
    if s != [] && s[0].score >= e.score {
      InsertCounts(s[1..], e, v);
    }
  }

  /** Sorting does not change how many entries reach a score. */
  lemma {:induction false} SortCounts(s: seq<Entry>, v: int)
    ensures CountAtLeast(Sort(s), v) == CountAtLeast(s, v)
    ensures CountAbove(Sort(s), v) == CountAbove(s, v)
  {
    if s != [] {
      var init, last := s[..|s| - 1], s[|s| - 1];
      SortCounts(init, v);
      InsertCounts(Sort(init), last, v);
      CountsAppend(init, [last], v);
      assert s == init + [last];
    }
  }

  /** The list after saving is the sorted old list with the new entry slotted in. */
  lemma SaveShape(stored: seq<Entry>, e: Entry)
    ensures var sorted, k := Sort(stored), CountAtLeast(stored, e.score);
      Sort(stored + [e]) == sorted[..k] + [e] + sorted[k..]
  {
    var all := stored + [e];
    assert all[..|all| - 1] == stored;
    SortSorts(stored);
    SortCounts(stored, e.score);
    InsertPosition(Sort(stored), e);
  }

  // ---------------------------------------------------------------------------
  // What saveScore promises

  /** At most five entries are kept: all of them while there is room. */
  lemma SaveBounded(stored: seq<Entry>, e: Entry)
    ensures |SaveList(stored, e)| == Min(Capacity, |stored| + 1)
  {
    SortPermutes(stored + [e]);
    assert |multiset(Sort(stored + [e]))| == |stored| + 1;
  }

  /** The saved list is sorted by descending score. */
  lemma SaveSorted(stored: seq<Entry>, e: Entry)
    ensures SortedDesc(SaveList(stored, e))
  {
    SortSorts(stored + [e]);
  }

  /** Every saved entry is an old entry or the new one, and none is duplicated. */
  lemma SaveFromOldOrNew(stored: seq<Entry>, e: Entry)
    ensures multiset(SaveList(stored, e)) <= multiset(stored) + multiset{e}
    ensures forall x :: x in SaveList(stored, e) ==> x in stored || x == e
  {
    var all := Sort(stored + [e]);
    SortPermutes(stored + [e]);
    var r := SaveList(stored, e);
    assert all == r + all[|r|..];
    assert multiset(all) == multiset(r) + multiset(all[|r|..]);
    forall x | x in r
      ensures x in stored || x == e
    {
      assert x in multiset(r);
      assert x in multiset(stored + [e]);
      assert x in stored + [e];
    }
  }

  /**
   * The new entry is kept, at the rank just after every old entry scoring at
   * least as much, exactly when fewer than five such entries exist.
   */
  lemma SaveKeepsNew(stored: seq<Entry>, e: Entry)
    requires CountAtLeast(stored, e.score) < Capacity
    ensures var k := CountAtLeast(stored, e.score);
      k < |SaveList(stored, e)| && SaveList(stored, e)[k] == e
  {
    SaveShape(stored, e);
    SortPermutes(stored);
    assert |multiset(Sort(stored))| == |stored|;
  }

  /** Otherwise the new entry is dropped and the old top five stay as they were. */
  lemma SaveDropsNew(stored: seq<Entry>, e: Entry)
    requires Capacity <= CountAtLeast(stored, e.score)
    ensures SaveList(stored, e) == Sort(stored)[..Capacity]
  {
    SaveShape(stored, e);
    SortPermutes(stored);
    assert |multiset(Sort(stored))| == |stored|;
    var sorted, k := Sort(stored), CountAtLeast(stored, e.score);
    assert (sorted[..k] + [e] + sorted[k..])[..Capacity] == sorted[..Capacity];
  }

  /**
   * The new score appears on the board (as the new entry or an old tie) when
   * fewer than five old entries strictly beat it.
   */
  lemma SaveShowsScore(stored: seq<Entry>, e: Entry)
    requires CountAbove(stored, e.score) < Capacity
    ensures exists i :: 0 <= i < |SaveList(stored, e)| && SaveList(stored, e)[i].score == e.score
  {
    var k := CountAtLeast(stored, e.score);
    if k < Capacity {
      SaveKeepsNew(stored, e);
    } else {
      SaveDropsNew(stored, e);
      var sorted, j := Sort(stored), CountAbove(stored, e.score);
      SortSorts(stored);
      SortCounts(stored, e.score);
      SortPermutes(stored);
      assert |multiset(sorted)| == |stored|;
      AtLeastPrefix(sorted, e.score, j);
      AbovePrefix(sorted, e.score, j);
      assert SaveList(stored, e)[j] == sorted[j];
    }
  }

  /** Saving into a board that was already sorted keeps its old order among the survivors. */
  lemma SaveIntoSorted(stored: seq<Entry>, e: Entry)
    requires SortedDesc(stored) && Capacity <= CountAtLeast(stored, e.score)
    ensures SaveList(stored, e) == stored[..Capacity]
  {
    SaveDropsNew(stored, e);
    SortFixesSorted(stored);
  }

  // ---------------------------------------------------------------------------
  // The browser's storage for the board

  /** The stored leaderboard item: `None` while nothing has been stored. */
  class Store {
    var saved: Option<seq<Entry>>

    constructor ()
      ensures saved == None
    {
      saved := None;
    }

    /** `getLeaderboard`: the stored list, or an empty one when nothing is stored. */
    method GetLeaderboard() returns (scores: seq<Entry>)
      ensures saved == None ==> scores == []
      ensures saved.Some? ==> scores == saved.value
    {
      if saved.Some? {
        scores := saved.value;
      } else {
        scores := [];
      }
    }

    /** The list `GetLeaderboard` returns, for use in specifications. */
    function Entries(): seq<Entry>
      reads this
    {
      if saved.Some? then saved.value else []
    }

    /** `saveScore`: read, push the new entry, sort, keep five, store. */
    method SaveScore(score: int, date: string)
      modifies this
      ensures saved == Some(SaveList(old(Entries()), Entry(score, date)))
    {
      var scores := GetLeaderboard();
      scores := scores + [Entry(score, date)];
      scores := Sort(scores);
      scores := scores[..Min(Capacity, |scores|)];
      saved := Some(scores);
    }
  }
}
