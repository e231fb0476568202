/**
 * The event record of the replay log. The source imports a `StreamEvent`
 * type that it never defines; its shape here is the one the engine reads:
 * a tag, the market, a timestamp, a sequence number and four optional fields.
 */
module Events {
  import opened Results

  /** The record tag: `trade`, `ob_delta`, or any other string. */
  datatype EventKind = Trade | ObDelta | OtherKind(tag: string)

  /**
   * One decoded log line. `side`, `price`, `size` and `tradeId` may be
   * missing from the JSON object; prices and sizes are only ever compared
   * for equality, tested against zero and ordered, so `real` stands for
   * the JavaScript number.
   */
  datatype StreamEvent = StreamEvent(
    kind: EventKind,
    market: string,
    ts: int,
    seqNo: int,
    side: Option<string>,
    price: Option<real>,
    size: Option<real>,
    tradeId: Option<string>)

  /** The guard shared by both branches: price, size and side are all defined. */
  predicate HasLevelFields(e: StreamEvent)
  {
    e.price.Some? && e.size.Some? && e.side.Some?
  }
}
