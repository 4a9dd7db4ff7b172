/** Live streams as the cart and the checkout see them. Times are milliseconds. */
module Streams {
  import opened Base

  type StreamId = string
  type ProductId = string

  const HOUR: int := 3600000
  const POST_LIVE_CART_HOURS: int := 24

  datatype Stream = Stream(
    isLive: bool, startedAt: Option<int>, endedAt: Option<int>, sessionEndedAt: Option<int>,
    createdAt: int, listing: set<ProductId>)

  /** The first known time among end, session end, start and creation. */
  function EffectiveEnd(s: Stream): int {
    if s.endedAt.Some? then s.endedAt.value
    else if s.sessionEndedAt.Some? then s.sessionEndedAt.value
    else if s.startedAt.Some? then s.startedAt.value
    else s.createdAt
  }

  function ExpiryFromEnd(end: int): int {
    end + POST_LIVE_CART_HOURS * HOUR
  }

  datatype StreamRefusal = InvalidStream | NotStarted | CartExpired | Ended | NotAvailable | NotListed

  /** May these products be ordered from this stream now? `None` means yes. */
  function AssertStreamAndProducts(stream: Option<Stream>, now: int, products: set<ProductId>): Option<StreamRefusal> {
    if stream.None? then Some(InvalidStream)
    else
      var s := stream.value;
      if s.startedAt.None? then Some(NotStarted)
      else if !s.isLive && s.endedAt.Some? && now > ExpiryFromEnd(s.endedAt.value) then Some(CartExpired)
      else if !s.isLive && s.endedAt.None? then Some(Ended)
      else if s.isLive && s.endedAt.Some? then Some(NotAvailable)
      else if !(products <= s.listing) then Some(NotListed)
      else None
  }

  // ---------- what the two rules say ----------

  /** The known times of a stream, in the order in which they decide its end. */
  function Known(s: Stream): seq<int> {
    (if s.endedAt.Some? then [s.endedAt.value] else [])
    + (if s.sessionEndedAt.Some? then [s.sessionEndedAt.value] else [])
    + (if s.startedAt.Some? then [s.startedAt.value] else [])
    + [s.createdAt]
  }

  /** The cart window is over a day of milliseconds after the first known time. */
  lemma WindowIsADay(s: Stream)
    ensures ExpiryFromEnd(EffectiveEnd(s)) - Known(s)[0] == 86_400_000
  {
  }

  /** Live without an end, or within a day of its recorded end; either way once started. */
  predicate OpenForOrders(s: Stream, now: int) {
    && s.startedAt.Some?
    && (if s.isLive then s.endedAt.None? else s.endedAt.Some? && now - s.endedAt.value <= 86_400_000)
  }

  lemma AssertExactly(s: Stream, now: int, products: set<ProductId>)
    ensures AssertStreamAndProducts(Some(s), now, products).None?
       <==> OpenForOrders(s, now) && forall p :: p in products ==> p in s.listing
  {
  }
}
