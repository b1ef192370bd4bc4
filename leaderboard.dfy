/**
 * The leaderboard query the vote handler runs (index.js:138-142):
 * `select id, title, upvotes from memes order by upvotes desc limit 10`.
 * The store returns rows with equal upvotes in an order of its own; this
 * model fixes one: ascending id.
 */
module Leaderboard {

  import opened Records

  /** A leaderboard row: the projection of a meme onto id, title and upvotes. */
  datatype Entry = Entry(id: int, title: string, upvotes: int)

  /** The query's `limit`. */
  const Limit := 10

  /** `select('id, title, upvotes')` on one row. */
  function ToEntry(m: Meme): (e: Entry)
    ensures e.id == m.id && e.title == m.title && e.upvotes == m.upvotes
  {
    Entry(m.id, m.title, m.upvotes)
  }

  /** Non-increasing by upvotes. */
  predicate SortedDesc(s: seq<Entry>)
  {
    forall i, j :: 0 <= i < j < |s| ==> s[i].upvotes >= s[j].upvotes
  }

  /** No meme occurs twice. */
  predicate DistinctIds(s: seq<Entry>)
  {
    forall i, j :: 0 <= i < j < |s| ==> s[i].id != s[j].id
  }

  /** Every meme is stored under its own id, and every id is in [0, bound). */
  ghost predicate KeyedBelow(memes: map<int, Meme>, bound: int)
  {
    forall k :: k in memes ==> memes[k].id == k && 0 <= k < bound
  }

  /** The memes whose ids lie in [0, n), in ascending id order. */
  function Rows(memes: map<int, Meme>, n: int): (rows: seq<Meme>)
    ensures |rows| <= if n <= 0 then 0 else n
    ensures forall i :: 0 <= i < |rows| ==> rows[i] in memes.Values
    decreases n
  {
    if n <= 0 then []
    else Rows(memes, n - 1) + (if n - 1 in memes then [memes[n - 1]] else [])
  }

  /** The projection of a scan, row by row. */
  function Entries(rows: seq<Meme>): (es: seq<Entry>)
    ensures |es| == |rows|
    ensures forall i :: 0 <= i < |rows| ==>
              es[i].id == rows[i].id && es[i].title == rows[i].title && es[i].upvotes == rows[i].upvotes
  {
    seq(|rows|, i requires 0 <= i < |rows| => ToEntry(rows[i]))
  }

  /** Place x before the first entry it does not fall below; earlier input stays earlier. */
  function Insert(x: Entry, s: seq<Entry>): (r: seq<Entry>)
    requires SortedDesc(s)
    ensures SortedDesc(r)
    ensures multiset(r) == multiset(s) + multiset{x}
  {
    if s == [] || x.upvotes >= s[0].upvotes then [x] + s
    else
      var t := Insert(x, s[1..]);
      assert s == [s[0]] + s[1..];
      InsertedBelowHead(x, s, t);
      [s[0]] + t
  }

  /** What Insert places after the head of s has no more upvotes than that head. */
  lemma InsertedBelowHead(x: Entry, s: seq<Entry>, t: seq<Entry>)
    requires s != [] && SortedDesc(s) && x.upvotes < s[0].upvotes
    requires SortedDesc(t) && multiset(t) == multiset(s[1..]) + multiset{x}
    ensures SortedDesc([s[0]] + t)
  {
    forall j | 0 <= j < |t| ensures t[j].upvotes <= s[0].upvotes {
      assert t[j] in multiset(t);
      if t[j] != x {
        assert t[j] in multiset(s[1..]);
        var k :| 0 <= k < |s[1..]| && s[1..][k] == t[j];
        assert s[k + 1] == t[j];
      }
    }
    var r := [s[0]] + t;
    forall i, j | 0 <= i < j < |r| ensures r[i].upvotes >= r[j].upvotes {
      assert r[j] == t[j - 1];
      if i > 0 { assert r[i] == t[i - 1]; }
    }
  }

  /** A stable sort by upvotes, largest first. */
  function SortByUpvotes(s: seq<Entry>): (r: seq<Entry>)
    ensures SortedDesc(r)
    ensures multiset(r) == multiset(s)
  {
    if s == [] then []
    else
      assert s == [s[0]] + s[1..];
      Insert(s[0], SortByUpvotes(s[1..]))
  }

  /** The rows the query returns, for a store keyed below `bound`. */
  function Query(memes: map<int, Meme>, bound: int): (board: seq<Entry>)
    ensures |board| <= Limit
    ensures SortedDesc(board)
  {
    var sorted := SortByUpvotes(Entries(Rows(memes, bound)));
    if |sorted| <= Limit then sorted else sorted[..Limit]
  }

  // ---------------------------------------------------------------------
  // The query returns the top memes of the store
  // ---------------------------------------------------------------------

  lemma {:induction false} RowsComplete(memes: map<int, Meme>, n: int, k: int)
    requires k in memes && 0 <= k < n
    ensures memes[k] in Rows(memes, n)
    decreases n
  {
    if k < n - 1 {
      RowsComplete(memes, n - 1, k);
    }
  }

  lemma {:induction false} RowsSound(memes: map<int, Meme>, n: int, m: Meme)
    requires forall k :: k in memes ==> memes[k].id == k
    requires m in Rows(memes, n)
    ensures m.id in memes && memes[m.id] == m && m.id < n
    decreases n
  {
    if m !in Rows(memes, n - 1) {
      assert n - 1 in memes && m == memes[n - 1];
    } else {
      RowsSound(memes, n - 1, m);
    }
  }

  /** Rows come out in strictly ascending id order, all below n. */
  lemma {:induction false} RowsAscending(memes: map<int, Meme>, n: int)
    requires forall k :: k in memes ==> memes[k].id == k
    ensures forall i :: 0 <= i < |Rows(memes, n)| ==> Rows(memes, n)[i].id < n
    ensures forall i, j :: 0 <= i < j < |Rows(memes, n)| ==> Rows(memes, n)[i].id < Rows(memes, n)[j].id
    decreases n
  {
    if n > 0 {
      RowsAscending(memes, n - 1);
    }
  }

  /** A sequence whose elements all have an id other than that of its new head keeps distinct ids. */
  lemma ConsDistinct(h: Entry, t: seq<Entry>)
    requires DistinctIds(t)
    requires forall j :: 0 <= j < |t| ==> t[j].id != h.id
    ensures DistinctIds([h] + t)
  {
    var r := [h] + t;
    forall i, j | 0 <= i < j < |r| ensures r[i].id != r[j].id {
      assert r[j] == t[j - 1];
      if i > 0 { assert r[i] == t[i - 1]; }
    }
  }

  lemma {:induction false} InsertDistinct(x: Entry, s: seq<Entry>)
    requires SortedDesc(s) && DistinctIds(s)
    requires forall e :: e in s ==> e.id != x.id
    ensures DistinctIds(Insert(x, s))
  {
    if s == [] || x.upvotes >= s[0].upvotes {
      forall j | 0 <= j < |s| ensures s[j].id != x.id { assert s[j] in s; }
      ConsDistinct(x, s);
    } else {
      var rest := s[1..];
      var t := Insert(x, rest);
      assert DistinctIds(rest) && forall e :: e in rest ==> e in s;
      InsertDistinct(x, rest);
      forall j | 0 <= j < |t| ensures t[j].id != s[0].id {
        assert t[j] in multiset(t);
        if t[j] != x {
          assert t[j] in multiset(rest);
          var k :| 0 <= k < |rest| && rest[k] == t[j];
          assert s[k + 1] == t[j];
        } else {
          assert s[0] in s;
        }
      }
      ConsDistinct(s[0], t);
    }
  }

  lemma {:induction false} SortDistinct(s: seq<Entry>)
    requires DistinctIds(s)
    ensures DistinctIds(SortByUpvotes(s))
  {
    if s != [] {
      assert DistinctIds(s[1..]) by {
        forall i, j | 0 <= i < j < |s[1..]| ensures s[1..][i].id != s[1..][j].id {
          assert s[1..][i] == s[i + 1] && s[1..][j] == s[j + 1];
        }
      }
      SortDistinct(s[1..]);
      var t := SortByUpvotes(s[1..]);
      forall e | e in t ensures e.id != s[0].id {
        assert e in multiset(s[1..]);
        var j :| 0 <= j < |s[1..]| && s[1..][j] == e;
        assert s[j + 1] == e;
      }
      InsertDistinct(s[0], t);
    }
  }

  /** No meme appears twice on the leaderboard. */
  lemma QueryDistinct(memes: map<int, Meme>, bound: int)
    requires KeyedBelow(memes, bound)
    ensures DistinctIds(Query(memes, bound))
  {
    var es := Entries(Rows(memes, bound));
    var sorted := SortByUpvotes(es);
    RowsAscending(memes, bound);
    assert DistinctIds(es);
    SortDistinct(es);
    var board := Query(memes, bound);
    assert board == sorted[..|board|];
  }

  /** Every row on the leaderboard comes from the projected table scan. */
  lemma QueryRowFromScan(memes: map<int, Meme>, bound: int, e: Entry)
    requires e in Query(memes, bound)
    ensures e in Entries(Rows(memes, bound))
  {
    var es := Entries(Rows(memes, bound));
    var sorted := SortByUpvotes(es);
    var board := Query(memes, bound);
    assert board == sorted[..|board|];
    assert e in sorted;
    assert e in multiset(sorted);
  }

  /** Every row on the leaderboard is the projection of a stored meme. */
  lemma QueryRowsAreStoredMemes(memes: map<int, Meme>, bound: int)
    requires KeyedBelow(memes, bound)
    ensures forall e :: e in Query(memes, bound) ==> e.id in memes && e == ToEntry(memes[e.id])
  {
    var rows := Rows(memes, bound);
    var es := Entries(rows);
    forall e | e in Query(memes, bound) ensures e.id in memes && e == ToEntry(memes[e.id]) {
      QueryRowFromScan(memes, bound, e);
      var i :| 0 <= i < |es| && es[i] == e;
      RowsSound(memes, bound, rows[i]);
    }
  }

  /**
   * Every meme the query leaves out has no more upvotes than any row it
   * returns; when fewer than ten rows come back, no meme is left out.
   */
  lemma QueryKeepsTopMemes(memes: map<int, Meme>, bound: int, k: int)
    requires KeyedBelow(memes, bound) && k in memes
    ensures var board := Query(memes, bound);
      && (ToEntry(memes[k]) in board || forall e :: e in board ==> memes[k].upvotes <= e.upvotes)
      && (|board| < Limit ==> ToEntry(memes[k]) in board)
  {
    var rows := Rows(memes, bound);
    var es := Entries(rows);
    var sorted := SortByUpvotes(es);
    var board := Query(memes, bound);
    assert board == sorted[..|board|];
    RowsComplete(memes, bound, k);
    var i :| 0 <= i < |rows| && rows[i] == memes[k];
    assert es[i] == ToEntry(memes[k]);
    assert ToEntry(memes[k]) in multiset(es);
    assert ToEntry(memes[k]) in multiset(sorted);
    var j :| 0 <= j < |sorted| && sorted[j] == ToEntry(memes[k]);
    if j < |board| {
      assert board[j] == sorted[j];
    } else {
      forall e | e in board ensures memes[k].upvotes <= e.upvotes {
        var l :| 0 <= l < |board| && board[l] == e;
        assert sorted[l] == e;
      }
    }
  }

  /**
   * The leaderboard query on a store keyed by id below `bound`: at most ten
   * rows, by upvotes largest first, each the projection of a distinct stored
   * meme, and no meme left out outranks a row returned.
   */
  lemma QueryIsTopTen(memes: map<int, Meme>, bound: int)
    requires KeyedBelow(memes, bound)
    ensures var board := Query(memes, bound);
      && |board| <= Limit && SortedDesc(board) && DistinctIds(board)
      && (forall e :: e in board ==> e.id in memes && e == ToEntry(memes[e.id]))
      && (forall k :: k in memes ==>
            ToEntry(memes[k]) in board || forall e :: e in board ==> memes[k].upvotes <= e.upvotes)
      && (|board| < Limit ==> forall k :: k in memes ==> ToEntry(memes[k]) in board)
  {
    QueryDistinct(memes, bound);
    QueryRowsAreStoredMemes(memes, bound);
    forall k | k in memes
      ensures ToEntry(memes[k]) in Query(memes, bound)
              || forall e :: e in Query(memes, bound) ==> memes[k].upvotes <= e.upvotes
      ensures |Query(memes, bound)| < Limit ==> ToEntry(memes[k]) in Query(memes, bound)
    {
      QueryKeepsTopMemes(memes, bound, k);
    }
  }
}
