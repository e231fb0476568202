/**
 * Reading one side of a market's book the way the order-book view and the
 * applier tests do: `SELECT price FROM order_book WHERE market_id = ? AND
 * side = ? ORDER BY price DESC`. Because levels are keyed by
 * (market, side, price), each price appears once, and the listing depends
 * only on which keys are present, never on the order they were written in.
 */
module BookLevels {
  import opened Results
  import opened Events
  import opened OrderBookOps

  /** Strictly decreasing, hence also free of duplicate prices. */
  predicate StrictlyDescending(r: seq<real>)
  {
    forall i, j :: 0 <= i < j < |r| ==> r[i] > r[j]
  }

  /** The largest element of a non-empty finite set of prices. */
  ghost function MaxOf(ps: set<real>): (m: real)
    requires exists x :: x in ps
    ensures m in ps
    ensures forall x :: x in ps ==> x <= m
    decreases ps
  {
    var x :| x in ps;
    assert forall y :: y in ps ==> y in ps - {x} || y == x;
    if exists y :: y in ps - {x} then
      var r := MaxOf(ps - {x});
      if x > r then x else r
    else x
  }

  /** The elements of `ps`, largest first. */
  ghost function SortDescending(ps: set<real>): (r: seq<real>)
    ensures StrictlyDescending(r)
    ensures forall x :: x in r <==> x in ps
    ensures |r| == |ps|
    decreases ps
  {
    if exists x :: x in ps then
      var m := MaxOf(ps);
      [m] + SortDescending(ps - {m})
    else
      assert ps == {};
      []
  }

  /** The prices present for one market and side. */
  ghost function PricesAt(book: map<LevelKey, real>, market: string, side: string): set<real>
  {
    set k | k in book && k.market == market && k.side == side :: k.price
  }

  /** The query result: one market's prices on one side, highest first. */
  ghost function PricesDescending(book: map<LevelKey, real>, market: string, side: string): (r: seq<real>)
    ensures StrictlyDescending(r)
    ensures forall p :: p in r <==> LevelKey(market, side, p) in book
  {
    SortDescending(PricesAt(book, market, side))
  }

  /** An element of a strictly descending listing is its head or lies below it, in the tail. */
  lemma HeadOrBelow(a: seq<real>, x: real)
    requires StrictlyDescending(a) && x in a
    ensures x == a[0] || (x < a[0] && x in a[1..])
  {
    var i :| 0 <= i < |a| && a[i] == x;
    if i > 0 {
      assert a[1..][i - 1] == x;
    }
  }

  /** A strictly descending listing is determined by its set of elements. */
  lemma {:induction false} DescendingListingUnique(a: seq<real>, b: seq<real>)
    requires StrictlyDescending(a) && StrictlyDescending(b)
    requires forall x :: x in a <==> x in b
    ensures a == b
    decreases |a|
  {
    assert b != [] ==> b[0] in b && b[0] in a;
    if a != [] {
      assert a[0] in a;
      HeadOrBelow(b, a[0]);
      HeadOrBelow(a, b[0]);
      forall x ensures x in a[1..] <==> x in b[1..] {
        if x in a[1..] {
          assert x in a;
          HeadOrBelow(a, x);
          HeadOrBelow(b, x);
        }
        if x in b[1..] {
          assert x in b;
          HeadOrBelow(b, x);
          HeadOrBelow(a, x);
        }
      }
      DescendingListingUnique(a[1..], b[1..]);
      assert a == [a[0]] + a[1..] && b == [b[0]] + b[1..];
    }
  }

  /**
   * Bids at 100, 102 and 101 written (in any order) into a market with no
   * bids come back as [102, 101, 100].
   */
  lemma ThreeBidsListedDescending(book: map<LevelKey, real>, market: string)
    requires forall k :: k in book && k.market == market && k.side == "bid" ==> k.price in {100.0, 101.0, 102.0}
    requires LevelKey(market, "bid", 100.0) in book
    requires LevelKey(market, "bid", 101.0) in book
    requires LevelKey(market, "bid", 102.0) in book
    ensures PricesDescending(book, market, "bid") == [102.0, 101.0, 100.0]
  {
    var r := PricesDescending(book, market, "bid");
    var expected := [102.0, 101.0, 100.0];
    forall x ensures x in r <==> x in expected {
      if x in r {
        assert LevelKey(market, "bid", x) in book;
      }
    }
    DescendingListingUnique(r, expected);
  }

  /**
   * The test scenario: three non-zero bid deltas for one market, written in
   * some order into a store without bids of that market, list as
   * [102, 101, 100], and writing them highest first gives the same store.
   */
  lemma InsertionOrderIrrelevant(s: Store, d100: StreamEvent, d101: StreamEvent, d102: StreamEvent)
    requires forall k :: k in s.orderBook ==> k.market != d100.market || k.side != "bid"
    requires d100.kind == ObDelta && HasLevelFields(d100) && d100.size.value != 0.0
    requires d101.kind == ObDelta && HasLevelFields(d101) && d101.size.value != 0.0
    requires d102.kind == ObDelta && HasLevelFields(d102) && d102.size.value != 0.0
    requires d100.side.value == "bid" && d101.side.value == "bid" && d102.side.value == "bid"
    requires d101.market == d100.market && d102.market == d100.market
    requires d100.price.value == 100.0 && d101.price.value == 101.0 && d102.price.value == 102.0
    ensures ApplyAll(s, [d100, d102, d101]).Success?
    ensures ApplyAll(s, [d100, d102, d101]) == ApplyAll(s, [d102, d101, d100])
    ensures PricesDescending(ApplyAll(s, [d100, d102, d101]).value.orderBook, d100.market, "bid")
              == [102.0, 101.0, 100.0]
  {
    var m := s.orderBook;
    var k0, k1, k2 := KeyOf(d100), KeyOf(d101), KeyOf(d102);
    var v0, v1, v2 := d100.size.value, d101.size.value, d102.size.value;
    var s0, s2 := s.(orderBook := m[k0 := v0]), s.(orderBook := m[k0 := v0][k2 := v2]);
    assert [d100, d102, d101][1..] == [d102, d101] && [d102, d101][1..] == [d101];
    assert Apply(s, d100) == Success(s0) && Apply(s0, d102) == Success(s2);
    assert ApplyAll(s, [d100, d102, d101]) == ApplyAll(s0, [d102, d101]) == ApplyAll(s2, [d101]);
    assert [d101][1..] == [] && [d100][1..] == [];
    assert Apply(s2, d101) == Success(s.(orderBook := m[k0 := v0][k2 := v2][k1 := v1]));
    assert ApplyAll(s2, [d101]) == ApplyAll(s.(orderBook := m[k0 := v0][k2 := v2][k1 := v1]), []);
    assert ApplyAll(s, [d100, d102, d101]) == Success(s.(orderBook := m[k0 := v0][k2 := v2][k1 := v1]));
    var t2, t1 := s.(orderBook := m[k2 := v2]), s.(orderBook := m[k2 := v2][k1 := v1]);
    assert [d102, d101, d100][1..] == [d101, d100] && [d101, d100][1..] == [d100];
    assert Apply(s, d102) == Success(t2) && Apply(t2, d101) == Success(t1);
    assert ApplyAll(s, [d102, d101, d100]) == ApplyAll(t2, [d101, d100]) == ApplyAll(t1, [d100]);
    assert Apply(t1, d100) == Success(s.(orderBook := m[k2 := v2][k1 := v1][k0 := v0]));
    assert ApplyAll(t1, [d100]) == ApplyAll(s.(orderBook := m[k2 := v2][k1 := v1][k0 := v0]), []);
    assert ApplyAll(s, [d102, d101, d100]) == Success(s.(orderBook := m[k2 := v2][k1 := v1][k0 := v0]));
    assert m[k0 := v0][k2 := v2][k1 := v1] == m[k2 := v2][k1 := v1][k0 := v0];
    ThreeBidsListedDescending(m[k0 := v0][k2 := v2][k1 := v1], d100.market);
  }
}
