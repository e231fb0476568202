/**
 * The projection applier: how one stream event changes the `order_book`
 * and `trades` tables. The tables are maps keyed as in the schema:
 * `order_book` by (market_id, side, price) holding the size, `trades` by
 * the trade id holding the rest of the row.
 */
module OrderBookOps {
  import opened Results
  import opened Events

  /** The primary key of an `order_book` row. */
  datatype LevelKey = LevelKey(market: string, side: string, price: real)

  /** The non-key columns of a `trades` row. */
  datatype TradeRow = TradeRow(market: string, price: real, size: real, side: string, timestamp: int)

  /** The two projection tables. */
  datatype Store = Store(orderBook: map<LevelKey, real>, trades: map<string, TradeRow>)

  /** The only statement of the applier that can fail: the `CHECK(side IN ('bid', 'ask'))` of `order_book`. */
  datatype ApplyError = SideCheckFailed(side: string)

  /** The sides the `order_book` table admits. */
  const BookSides: set<string> := {"bid", "ask"}

  /** Every row of the order book satisfies the table's CHECK constraint. */
  predicate WellFormed(s: Store)
  {
    forall k :: k in s.orderBook ==> k.side in BookSides
  }

  // ---------------------------------------------------------------------
  // The trade id: `e.tradeId || `stream_${e.seq}``
  // ---------------------------------------------------------------------

  function DigitChar(d: nat): (c: char)
    requires d < 10
    ensures '0' <= c <= '9'
    ensures c as int - '0' as int == d
  {
    (d + '0' as int) as char
  }

  /** The decimal spelling of a natural number, as a JavaScript template literal writes it. */
  function NatToDecimal(n: nat): (r: string)
    ensures 1 <= |r|
    ensures n < 10 <==> |r| == 1
    ensures forall i :: 0 <= i < |r| ==> '0' <= r[i] <= '9'
    ensures r[|r| - 1] as int - '0' as int == n % 10
    decreases n
  {
    if n < 10 then [DigitChar(n)] else NatToDecimal(n / 10) + [DigitChar(n % 10)]
  }

  /** The decimal spelling of an integer, with a leading minus sign when negative. */
  function IntToDecimal(i: int): (r: string)
    ensures 1 <= |r|
    ensures i < 0 <==> r[0] == '-'
  {
    if i < 0 then "-" + NatToDecimal(-i) else NatToDecimal(i)
  }

  lemma {:induction false} NatToDecimalInjective(a: nat, b: nat)
    requires NatToDecimal(a) == NatToDecimal(b)
    ensures a == b
    decreases a
  {
    var ra, rb := NatToDecimal(a), NatToDecimal(b);
    assert a % 10 == b % 10;
    if 10 <= a {
      assert 10 <= b;
      assert ra[..|ra| - 1] == NatToDecimal(a / 10);
      assert rb[..|rb| - 1] == NatToDecimal(b / 10);
      NatToDecimalInjective(a / 10, b / 10);
    }
  }

  lemma IntToDecimalInjective(a: int, b: int)
    requires IntToDecimal(a) == IntToDecimal(b)
    ensures a == b
  {
    var ra := IntToDecimal(a);
    if a < 0 {
      assert ra[1..] == NatToDecimal(-a) && IntToDecimal(b)[1..] == NatToDecimal(-b);
      NatToDecimalInjective(-a, -b);
    } else {
      NatToDecimalInjective(a, b);
    }
  }

  /** The prefix of a synthesized trade id. */
  const SyntheticPrefix: string := "stream_"

  /** The key a trade event is stored under: its own id when non-empty, else `stream_<seq>`. */
  function TradeKey(e: StreamEvent): (r: string)
    ensures r != ""
  {
    if e.tradeId.Some? && e.tradeId.value != "" then e.tradeId.value
    else SyntheticPrefix + IntToDecimal(e.seqNo)
  }

  /** A trade carrying a non-empty `tradeId` is stored under exactly that id. */
  lemma TradeKeyOwnId(e: StreamEvent)
    requires e.tradeId.Some? && e.tradeId.value != ""
    ensures TradeKey(e) == e.tradeId.value
  {
  }

  /**
   * Two trades without a usable `tradeId` share a key exactly when they share
   * a sequence number, so replaying the same record deduplicates while two
   * different records never collide with each other.
   */
  lemma SyntheticKeysCollideIffSameSeq(e1: StreamEvent, e2: StreamEvent)
    requires e1.tradeId.None? || e1.tradeId.value == ""
    requires e2.tradeId.None? || e2.tradeId.value == ""
    ensures TradeKey(e1) == TradeKey(e2) <==> e1.seqNo == e2.seqNo
  {
    if TradeKey(e1) == TradeKey(e2) {
      var n := |SyntheticPrefix|;
      assert TradeKey(e1)[n..] == IntToDecimal(e1.seqNo);
      assert TradeKey(e2)[n..] == IntToDecimal(e2.seqNo);
      IntToDecimalInjective(e1.seqNo, e2.seqNo);
    }
  }

  // ---------------------------------------------------------------------
  // processStreamEvent as a function on the store
  // ---------------------------------------------------------------------

  /** The order-book key a delta addresses. */
  function KeyOf(e: StreamEvent): LevelKey
    requires HasLevelFields(e)
  {
    LevelKey(e.market, e.side.value, e.price.value)
  }

  /** The row a trade event inserts. */
  function RowOf(e: StreamEvent): TradeRow
    requires HasLevelFields(e)
  {
    TradeRow(e.market, e.price.value, e.size.value, e.side.value, e.ts)
  }

  /**
   * The effect of one event on the store: INSERT OR IGNORE of a trade,
   * DELETE of a level for a zero-size delta, upsert of a level otherwise.
   * Events lacking price, size or side, and events of any other kind,
   * change nothing.
   */
  function Apply(s: Store, e: StreamEvent): (r: Result<Store, ApplyError>)
    ensures r.Failure? <==> e.kind == ObDelta && HasLevelFields(e) && e.size.value != 0.0 && e.side.value !in BookSides
    ensures r.Success? ==> r.value.trades.Keys >= s.trades.Keys
  {
    if !HasLevelFields(e) then Success(s)
    else match e.kind
      case Trade =>
        var id := TradeKey(e);
        if id in s.trades then Success(s)
        else Success(s.(trades := s.trades[id := RowOf(e)]))
      case ObDelta =>
        var k := KeyOf(e);
        if e.size.value == 0.0 then Success(s.(orderBook := s.orderBook - {k}))
        else if k.side !in BookSides then Failure(SideCheckFailed(k.side))
        else Success(s.(orderBook := s.orderBook[k := e.size.value]))
      case OtherKind(_) => Success(s)
  }

  /** A non-zero delta for a new key creates exactly that level with the given size. */
  lemma DeltaCreatesLevel(s: Store, e: StreamEvent)
    requires e.kind == ObDelta && HasLevelFields(e) && e.size.value != 0.0
    requires e.side.value in BookSides && KeyOf(e) !in s.orderBook
    ensures Apply(s, e).Success?
    ensures Apply(s, e).value.orderBook == s.orderBook[KeyOf(e) := e.size.value]
    ensures |Apply(s, e).value.orderBook| == |s.orderBook| + 1
    ensures Apply(s, e).value.trades == s.trades
  {
  }

  /** A non-zero delta for an existing key replaces its size (it does not add to it) and adds no row. */
  lemma DeltaReplacesLevel(s: Store, e: StreamEvent)
    requires e.kind == ObDelta && HasLevelFields(e) && e.size.value != 0.0
    requires KeyOf(e) in s.orderBook && WellFormed(s)
    ensures Apply(s, e).Success?
    ensures Apply(s, e).value.orderBook[KeyOf(e)] == e.size.value
    ensures Apply(s, e).value.orderBook.Keys == s.orderBook.Keys
    ensures Apply(s, e).value.trades == s.trades
  {
  }

  /** A zero-size delta removes the level at its key and keeps every other level. */
  lemma ZeroDeltaRemovesLevel(s: Store, e: StreamEvent)
    requires e.kind == ObDelta && HasLevelFields(e) && e.size.value == 0.0
    ensures Apply(s, e).Success?
    ensures Apply(s, e).value.orderBook.Keys == s.orderBook.Keys - {KeyOf(e)}
    ensures forall k :: k in Apply(s, e).value.orderBook ==> Apply(s, e).value.orderBook[k] == s.orderBook[k]
    ensures KeyOf(e) !in s.orderBook ==> Apply(s, e) == Success(s)
  {
    if KeyOf(e) !in s.orderBook {
      assert s.orderBook - {KeyOf(e)} == s.orderBook;
    }
  }

  /** An upsert whose side the table does not admit fails and reports that side. */
  lemma DeltaWithBadSideFails(s: Store, e: StreamEvent)
    requires e.kind == ObDelta && HasLevelFields(e) && e.size.value != 0.0
    requires e.side.value !in BookSides
    ensures Apply(s, e) == Failure(SideCheckFailed(e.side.value))
  {
  }

  /** A trade is stored under its key; if that key is already present the first row wins. */
  lemma TradeInsertOrIgnore(s: Store, e: StreamEvent)
    requires e.kind == Trade && HasLevelFields(e)
    ensures Apply(s, e).Success?
    ensures TradeKey(e) in Apply(s, e).value.trades
    ensures TradeKey(e) in s.trades ==> Apply(s, e) == Success(s)
    ensures TradeKey(e) !in s.trades ==> Apply(s, e).value.trades == s.trades[TradeKey(e) := RowOf(e)]
  {
  }

  /** An event missing price, size or side, or of an unknown kind, changes nothing. */
  lemma IgnoredEventsChangeNothing(s: Store, e: StreamEvent)
    requires !HasLevelFields(e) || e.kind.OtherKind?
    ensures Apply(s, e) == Success(s)
  {
  }

  /**
   * Frame condition: a delta changes at most its own order-book key and
   * never the trades; a trade never touches the order book; a failure
   * happens only for a delta.
   */
  lemma ApplyFrame(s: Store, e: StreamEvent)
    ensures Apply(s, e).Success? ==>
      var t := Apply(s, e).value;
      && (e.kind != Trade ==> t.trades == s.trades)
      && (e.kind != ObDelta ==> t.orderBook == s.orderBook)
      && (HasLevelFields(e) ==> forall k :: k != KeyOf(e) ==>
            (k in t.orderBook <==> k in s.orderBook) && (k in s.orderBook ==> t.orderBook[k] == s.orderBook[k]))
    ensures Apply(s, e).Failure? ==> e.kind == ObDelta
  {
  }

  /** Applying the same event twice has the effect of applying it once. */
  lemma ApplyIdempotent(s: Store, e: StreamEvent)
    requires Apply(s, e).Success?
    ensures Apply(Apply(s, e).value, e) == Apply(s, e)
  {
    if HasLevelFields(e) && e.kind == ObDelta {
      var k := KeyOf(e);
      if e.size.value == 0.0 {
        assert s.orderBook - {k} - {k} == s.orderBook - {k};
      } else {
        assert s.orderBook[k := e.size.value][k := e.size.value] == s.orderBook[k := e.size.value];
      }
    }
  }

  /** Applying an event keeps every order-book row within the table's CHECK constraint. */
  lemma ApplyPreservesWellFormed(s: Store, e: StreamEvent)
    requires WellFormed(s)
    ensures Apply(s, e).Success? ==> WellFormed(Apply(s, e).value)
  {
  }

  /** Two deltas on different keys can be applied in either order with the same result. */
  lemma DeltasOnDistinctKeysCommute(s: Store, d1: StreamEvent, d2: StreamEvent)
    requires d1.kind == ObDelta && HasLevelFields(d1) && d2.kind == ObDelta && HasLevelFields(d2)
    requires KeyOf(d1) != KeyOf(d2)
    requires Apply(s, d1).Success? && Apply(s, d2).Success?
    ensures Apply(Apply(s, d1).value, d2).Success? && Apply(Apply(s, d2).value, d1).Success?
    ensures Apply(Apply(s, d1).value, d2) == Apply(Apply(s, d2).value, d1)
  {
    var k1, k2 := KeyOf(d1), KeyOf(d2);
    var m := s.orderBook;
    var v1, v2 := d1.size.value, d2.size.value;
    if v1 == 0.0 && v2 == 0.0 {
      assert m - {k1} - {k2} == m - {k2} - {k1};
    } else if v1 == 0.0 {
      assert (m - {k1})[k2 := v2] == m[k2 := v2] - {k1};
    } else if v2 == 0.0 {
      assert m[k1 := v1] - {k2} == (m - {k2})[k1 := v1];
    } else {
      assert m[k1 := v1][k2 := v2] == m[k2 := v2][k1 := v1];
    }
  }

  // ---------------------------------------------------------------------
  // Applying a sequence of events in log order
  // ---------------------------------------------------------------------

  /** Left fold of `Apply` over `es`, stopping at the first failure. */
  function ApplyAll(s: Store, es: seq<StreamEvent>): Result<Store, ApplyError>
    decreases |es|
  {
    if es == [] then Success(s)
    else match Apply(s, es[0])
      case Failure(err) => Failure(err)
      case Success(t) => ApplyAll(t, es[1..])
  }

  /** Applying `a` and then `b` is applying `a + b`, and a failure in `a` stops the whole run. */
  lemma {:induction false} ApplyAllAppend(s: Store, a: seq<StreamEvent>, b: seq<StreamEvent>)
    ensures ApplyAll(s, a).Failure? ==> ApplyAll(s, a + b) == ApplyAll(s, a)
    ensures ApplyAll(s, a).Success? ==> ApplyAll(s, a + b) == ApplyAll(ApplyAll(s, a).value, b)
    decreases |a|
  {
    if a == [] {
      assert a + b == b;
    } else {
      assert (a + b)[0] == a[0];
      assert (a + b)[1..] == a[1..] + b;
      match Apply(s, a[0])
      case Failure(_) =>
      case Success(t) => ApplyAllAppend(t, a[1..], b);
    }
  }

  /** Replaying a run keeps the store well formed. */
  lemma {:induction false} ApplyAllPreservesWellFormed(s: Store, es: seq<StreamEvent>)
    requires WellFormed(s)
    ensures ApplyAll(s, es).Success? ==> WellFormed(ApplyAll(s, es).value)
    decreases |es|
  {
    if es != [] {
      ApplyPreservesWellFormed(s, es[0]);
      if Apply(s, es[0]).Success? {
        ApplyAllPreservesWellFormed(Apply(s, es[0]).value, es[1..]);
      }
    }
  }

  /** The rows of one market in the order book. */
  function MarketLevels(book: map<LevelKey, real>, market: string): set<LevelKey>
  {
    set k | k in book && k.market == market
  }

  /**
   * Two non-zero deltas for the same key of a market with no rows leave the
   * market with exactly one row, holding the second size.
   */
  lemma SecondDeltaLeavesOneRow(s: Store, d1: StreamEvent, d2: StreamEvent)
    requires d1.kind == ObDelta && HasLevelFields(d1) && d1.size.value != 0.0 && d1.side.value in BookSides
    requires d2.kind == ObDelta && HasLevelFields(d2) && d2.size.value != 0.0
    requires KeyOf(d1) == KeyOf(d2) && MarketLevels(s.orderBook, d1.market) == {}
    ensures ApplyAll(s, [d1, d2]).Success?
    ensures MarketLevels(ApplyAll(s, [d1, d2]).value.orderBook, d1.market) == {KeyOf(d1)}
    ensures ApplyAll(s, [d1, d2]).value.orderBook[KeyOf(d1)] == d2.size.value
  {
    var k := KeyOf(d1);
    var t := Apply(s, d1).value;
    assert ApplyAll(s, [d1, d2]) == ApplyAll(t, [d2]);
    var u := Apply(t, d2).value;
    assert ApplyAll(t, [d2]) == Success(u);
  }

  // ---------------------------------------------------------------------
  // The database object the engine writes into
  // ---------------------------------------------------------------------

  /** The shared database handle, reduced to its two projection tables. */
  class Database {
    var orderBook: map<LevelKey, real>
    var trades: map<string, TradeRow>

    constructor (initial: Store)
      ensures Contents() == initial
    {
      orderBook := initial.orderBook;
      trades := initial.trades;
    }

    /** The tables as a value. */
    function Contents(): Store
      reads this
    {
      Store(orderBook, trades)
    }

    /**
     * `processStreamEvent`: one INSERT OR IGNORE, DELETE or upsert on the
     * tables. A failing statement throws and leaves the tables as they were.
     */
    method ProcessStreamEvent(e: StreamEvent) returns (err: Option<ApplyError>)
      modifies this
      ensures Apply(old(Contents()), e).Success? ==> err.None? && Contents() == Apply(old(Contents()), e).value
      ensures Apply(old(Contents()), e).Failure? ==>
                err == Some(Apply(old(Contents()), e).error) && Contents() == old(Contents())
    {
      err := None;
      if e.kind == Trade {
        if e.price.Some? && e.size.Some? && e.side.Some? {
          var id := TradeKey(e);
          if id !in trades {
            trades := trades[id := TradeRow(e.market, e.price.value, e.size.value, e.side.value, e.ts)];
          }
        }
      } else if e.kind == ObDelta {
        if e.price.Some? && e.size.Some? && e.side.Some? {
          var k := LevelKey(e.market, e.side.value, e.price.value);
          if e.size.value == 0.0 {
            orderBook := orderBook - {k};
          } else if e.side.value !in BookSides {
            err := Some(SideCheckFailed(e.side.value));
          } else {
            orderBook := orderBook[k := e.size.value];
          }
        }
      }
    }

    /** Replaces both tables at once: a rollback, or clearing and reseeding. */
    method Restore(s: Store)
      modifies this
      ensures Contents() == s
    {
      orderBook := s.orderBook;
      trades := s.trades;
    }
  }
}
