/** Serve-or-refetch for chapter searches: `Enumeration.covers_floor` in
    src/manga_gateway/framework/enum_cache.py with the chapter filter of
    src/manga_gateway/framework/base.py. */
module Enumerations {
  import opened Wrappers

  /** An upstream row; only its parsed chapter number matters here. */
  datatype Row = Row(id: nat, chapter: Option<real>)

  datatype Request = Request(isChapterSearch: bool, chapter: Option<real>)

  /** The whole-number chapter filter. */
  predicate ChapterMatches(req: Request, number: Option<real>) {
    if !req.isChapterSearch || req.chapter.None? then true
    else if number.None? then false
    else number.value.Floor == req.chapter.value.Floor
  }

  function Filtered(req: Request, rows: seq<Row>): seq<Row> {
    if rows == [] then []
    else (if ChapterMatches(req, rows[0].chapter) then [rows[0]] else []) + Filtered(req, rows[1..])
  }

  /** The parsed chapter numbers of some rows, in order. */
  function Numbers(rows: seq<Row>): seq<real> {
    if rows == [] then []
    else (if rows[0].chapter.Some? then [rows[0].chapter.value] else []) + Numbers(rows[1..])
  }

  function Lowest(ns: seq<real>): real
    requires ns != []
  {
    if |ns| == 1 || ns[0] <= Lowest(ns[1..]) then ns[0] else Lowest(ns[1..])
  }

  function Highest(ns: seq<real>): real
    requires ns != []
  {
    if |ns| == 1 || ns[0] >= Highest(ns[1..]) then ns[0] else Highest(ns[1..])
  }

  datatype Enumeration = Enumeration(items: seq<Row>, chapterNumbers: seq<real>, exhausted: bool, requestedLimit: int) {
    predicate CoversFloor(chapter: real) {
      if exhausted then true
      else if chapterNumbers == [] then false
      else Lowest(chapterNumbers).Floor <= chapter.Floor <= Highest(chapterNumbers).Floor
    }
  }

  /** `rest` could follow `window` in a feed ordered newest first by chapter number. */
  ghost predicate Older(window: seq<Row>, rest: seq<Row>) {
    forall w, o | w in window && o in rest && w.chapter.Some? && o.chapter.Some? :: o.chapter.value <= w.chapter.value
  }

  /** `e` is the newest part of `feed`, or all of it when the feed was exhausted. */
  ghost predicate NewestPart(e: Enumeration, feed: seq<Row>) {
    && e.items <= feed && Older(e.items, feed[|e.items|..])
    && e.chapterNumbers == Numbers(e.items)
    && (e.exhausted ==> e.items == feed)
  }

  lemma {:induction false} FilteredConcat(req: Request, a: seq<Row>, b: seq<Row>)
    ensures Filtered(req, a + b) == Filtered(req, a) + Filtered(req, b)
  {
    if a == [] {
      assert a + b == b;
    } else {
      assert (a + b)[1..] == a[1..] + b;
      FilteredConcat(req, a[1..], b);
    }
  }

  lemma {:induction false} NothingMatches(req: Request, rows: seq<Row>)
    ensures Filtered(req, rows) == [] <==> forall r | r in rows :: !ChapterMatches(req, r.chapter)
  {
    if rows != [] {
      NothingMatches(req, rows[1..]);
      assert forall r | r in rows :: r == rows[0] || r in rows[1..];
    }
  }

  /** A row matches a request that searches for no chapter, or that lies within the whole number of
      the chapter searched for. */
  predicate Matches(req: Request, r: Row) {
    req.isChapterSearch && req.chapter.Some? ==>
      && r.chapter.Some?
      && req.chapter.value.Floor as real <= r.chapter.value < (req.chapter.value.Floor + 1) as real
  }

  /** The filter keeps all of what matches throughout, and drops all of what nowhere does; and it
      goes over the rows one after the other. */
  lemma {:induction false} FiltersMatches(req: Request, rows: seq<Row>, more: seq<Row>)
    ensures (forall r | r in rows :: Matches(req, r)) ==> Filtered(req, rows) == rows
    ensures (forall r | r in rows :: !Matches(req, r)) ==> Filtered(req, rows) == []
    ensures Filtered(req, rows + more) == Filtered(req, rows) + Filtered(req, more)
  {
    FilteredConcat(req, rows, more);
    if rows != [] {
      assert rows == [rows[0]] + rows[1..] && rows[0] in rows;
      FiltersMatches(req, rows[1..], more);
    }
  }

  /** The lowest number belongs to a row of the window and is below every other number there. */
  lemma {:induction false} LowestRow(rows: seq<Row>)
    requires Numbers(rows) != []
    ensures exists r :: r in rows && r.chapter == Some(Lowest(Numbers(rows)))
    ensures forall r | r in rows && r.chapter.Some? :: Lowest(Numbers(rows)) <= r.chapter.value
  {
    var tail := rows[1..];
    assert rows[0] in rows && forall r | r in rows :: r == rows[0] || r in tail;
    if Numbers(tail) == [] {
      NoNumbers(tail);
    } else {
      LowestRow(tail);
      var r :| r in tail && r.chapter == Some(Lowest(Numbers(tail)));
      assert r in rows;
      if rows[0].chapter.Some? {
        assert Numbers(rows)[1..] == Numbers(tail);
      } else {
        assert Numbers(rows) == Numbers(tail);
      }
    }
  }

  lemma {:induction false} NoNumbers(rows: seq<Row>)
    requires Numbers(rows) == []
    ensures forall r | r in rows :: r.chapter.None?
  {
    if rows != [] {
      NoNumbers(rows[1..]);
      assert forall r | r in rows :: r == rows[0] || r in rows[1..];
    }
  }

  lemma {:induction false} HighestRow(rows: seq<Row>)
    requires Numbers(rows) != []
    ensures exists r :: r in rows && r.chapter == Some(Highest(Numbers(rows)))
    ensures forall r | r in rows && r.chapter.Some? :: r.chapter.value <= Highest(Numbers(rows))
  {
    var tail := rows[1..];
    assert rows[0] in rows && forall r | r in rows :: r == rows[0] || r in tail;
    if Numbers(tail) == [] {
      NoNumbers(tail);
    } else {
      HighestRow(tail);
      var r :| r in tail && r.chapter == Some(Highest(Numbers(tail)));
      assert r in rows;
      if rows[0].chapter.Some? {
        assert Numbers(rows)[1..] == Numbers(tail);
      } else {
        assert Numbers(rows) == Numbers(tail);
      }
    }
  }

  /** A window that is not the whole feed is accepted exactly for a chapter between two of its own
      rows, by whole numbers. */
  lemma CoversExactlyWhen(e: Enumeration, chapter: real)
    requires e.chapterNumbers == Numbers(e.items)
    ensures e.CoversFloor(chapter) <==>
              e.exhausted
              || exists low, high :: low in e.items && high in e.items && Between(low, high, chapter)
  {
    if e.chapterNumbers != [] {
      LowestRow(e.items);
      HighestRow(e.items);
      var low :| low in e.items && low.chapter == Some(Lowest(e.chapterNumbers));
      var high :| high in e.items && high.chapter == Some(Highest(e.chapterNumbers));
      assert !e.exhausted && e.CoversFloor(chapter) ==> Between(low, high, chapter);
    } else {
      NoNumbers(e.items);
    }
  }

  predicate Between(low: Row, high: Row, chapter: real) {
    && low.chapter.Some? && high.chapter.Some?
    && low.chapter.value.Floor <= chapter.Floor <= high.chapter.value.Floor
  }

  /** No false empty: when the window is accepted for a chapter and holds no match, neither does the feed. */
  lemma NoFalseEmpty(e: Enumeration, feed: seq<Row>, chapter: real)
    requires NewestPart(e, feed) && e.CoversFloor(chapter)
    requires Filtered(Request(true, Some(chapter)), e.items) == []
    ensures Filtered(Request(true, Some(chapter)), feed) == []
  {
    var req := Request(true, Some(chapter));
    if !e.exhausted {
      NothingMatches(req, e.items);
      LowestRow(e.items);
      var low :| low in e.items && low.chapter == Some(Lowest(e.chapterNumbers));
      assert !ChapterMatches(req, low.chapter);
      BelowLowest(e, feed, chapter);
    }
  }

  /** Above the window's lowest whole number the window answers for the whole feed. */
  lemma BelowLowest(e: Enumeration, feed: seq<Row>, chapter: real)
    requires NewestPart(e, feed) && e.chapterNumbers != [] && Lowest(e.chapterNumbers).Floor < chapter.Floor
    ensures Filtered(Request(true, Some(chapter)), feed) == Filtered(Request(true, Some(chapter)), e.items)
  {
    var req := Request(true, Some(chapter));
    var rest := feed[|e.items|..];
    LowestRow(e.items);
    var low :| low in e.items && low.chapter == Some(Lowest(e.chapterNumbers));
    forall o | o in rest ensures !ChapterMatches(req, o.chapter) {}
    NothingMatches(req, rest);
    assert feed == e.items + rest;
    FilteredConcat(req, e.items, rest);
  }

  /** An accepted window is the complete answer, whatever older rows follow it, exactly when the
      chapter lies above the window's lowest whole number: at that number the window is never
      empty, but older rows of the same number may be missing from it. */
  lemma CompleteExactlyAboveLowest(e: Enumeration, chapter: real)
    requires !e.exhausted && e.chapterNumbers == Numbers(e.items) && e.CoversFloor(chapter)
    ensures (forall rest | Older(e.items, rest) ::
               Filtered(Request(true, Some(chapter)), e.items + rest)
                 == Filtered(Request(true, Some(chapter)), e.items))
            <==> Lowest(e.chapterNumbers).Floor < chapter.Floor
  {
    var req := Request(true, Some(chapter));
    var low := Lowest(e.chapterNumbers);
    if low.Floor < chapter.Floor {
      forall rest | Older(e.items, rest)
        ensures Filtered(req, e.items + rest) == Filtered(req, e.items)
      {
        assert (e.items + rest)[|e.items|..] == rest;
        BelowLowest(e, e.items + rest, chapter);
      }
    } else {
      LowestRow(e.items);
      var rest := [Row(0, Some(low))];
      assert Older(e.items, rest);
      FilteredConcat(req, e.items, rest);
      assert Filtered(req, rest) == rest + Filtered(req, []) == rest;
      assert Filtered(req, e.items + rest) != Filtered(req, e.items);
    }
  }
}
