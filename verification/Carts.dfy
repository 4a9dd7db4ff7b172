/**
 Buyer carts as a cache: each cart is a stored value with an optional expiry, indexed
 by the stream it was filled from. The stream table and the clock are inputs; the
 clock stands still during one call.
 */
module Carts {
  import opened Base
  import opened Text
  import opened Streams
  import opened Variants
  import opened Shop
  import opened Redis

  type UserId = string

  datatype CartItem = CartItem(
    product: ProductId, quantity: nat, size: Option<string>, color: Option<string>,
    variantId: Option<string>, title: Option<string>)

  datatype CartState = CartState(
    items: seq<CartItem>, streamId: Option<StreamId>, streamTitle: Option<string>,
    expiresAt: Option<int>, updatedAt: Option<int>)

  /** A stored value: unreadable, the legacy bare list of items, or a cart state. */
  datatype Raw = Corrupt | Legacy(items: seq<CartItem>) | Stored(state: CartState)

  type Cache = Store<UserId, Raw, StreamId, UserId>

  type StreamTable = map<StreamId, Stream>

  const EMPTY := CartState([], None, None, None, None)

  function Parse(raw: Option<Raw>): CartState {
    match raw
    case None => EMPTY
    case Some(Corrupt) => EMPTY
    case Some(Legacy(items)) => CartState(items, None, None, None, Some(0))
    case Some(Stored(state)) => state
  }

  function LoadCartState(c: Cache, u: UserId, now: int): CartState {
    Parse(c.Get(u, now))
  }

  function Index(c: Cache, u: UserId, s: Option<StreamId>): Cache {
    if Given(s) then c.Sadd(s.value, u) else c
  }

  function Unindex(c: Cache, u: UserId, s: Option<StreamId>): Cache {
    if Given(s) then c.Srem(s.value, u) else c
  }

  function ClearCart(c: Cache, u: UserId, s: Option<StreamId>): Cache {
    Unindex(c.Del(u), u, s)
  }

  function SaveCartState(c: Cache, u: UserId, st: CartState, ttl: Option<nat>, now: int): Cache {
    if st.items == [] then ClearCart(c, u, st.streamId)
    else Index(c.Put(u, Stored(st.(updatedAt := Some(now))), ttl, now), u, st.streamId)
  }

  /** Whole seconds left until `expires`; a negative remainder rounds down. */
  function SecondsLeft(expires: int, now: int): int {
    (expires - now) / 1000
  }

  /** The 24-hour window after a live: clears, or refreshes stamp and expiry. */
  function EnforceCartExpiry(c: Cache, streams: StreamTable, u: UserId, st: CartState, now: int): (Cache, CartState) {
    if st.items == [] then (c, EMPTY)
    else if st.expiresAt.Some? && now >= st.expiresAt.value then (ClearCart(c, u, st.streamId), EMPTY)
    else if !Given(st.streamId) then
      var updatedAt := st.updatedAt.GetOr(0);
      if updatedAt == 0 || now >= updatedAt + POST_LIVE_CART_HOURS * HOUR then (ClearCart(c, u, None), EMPTY)
      else (c, st)
    else if st.streamId.value !in streams then (ClearCart(c, u, st.streamId), EMPTY)
    else
      var stream := streams[st.streamId.value];
      if stream.isLive then
        var next := st.(updatedAt := Some(now));
        (Index(SaveCartState(c, u, next, None, now), u, st.streamId), next)
      else
        var expires := ExpiryFromEnd(EffectiveEnd(stream));
        var ttl := SecondsLeft(expires, now);
        if ttl <= 0 then (ClearCart(c, u, st.streamId), EMPTY)
        else
          var next := st.(expiresAt := Some(expires), updatedAt := Some(now));
          (Index(SaveCartState(c, u, next, Some(ttl), now), u, st.streamId), next)
  }

  function LoadCartForUser(c: Cache, streams: StreamTable, u: UserId, now: int): (Cache, CartState) {
    EnforceCartExpiry(c, streams, u, LoadCartState(c, u, now), now)
  }

  function PersistCartState(c: Cache, streams: StreamTable, u: UserId, st: CartState, now: int): Cache {
    if st.items == [] then ClearCart(c, u, st.streamId)
    else
      var (c1, enforced) := EnforceCartExpiry(c, streams, u, st, now);
      if enforced.items == [] then c1
      else if enforced.expiresAt.Some?
      then SaveCartState(c1, u, enforced, Some(Max(1, SecondsLeft(enforced.expiresAt.value, now))), now)
      else SaveCartState(c1, u, enforced, None, now)
  }

  /** The cart as read for display; a cart with no whole second left is dropped. */
  function GetCart(c: Cache, streams: StreamTable, u: UserId, now: int): (Cache, CartState) {
    var (c1, st) := LoadCartForUser(c, streams, u, now);
    if st.items != [] && st.expiresAt.Some? && Max(0, SecondsLeft(st.expiresAt.value, now)) <= 0
    then (ClearCart(c1, u, st.streamId), EMPTY)
    else (c1, st)
  }

  // ---------- when a stream ends ----------

  /** The holder's live cart is tied to the stream. */
  predicate TiedTo(c: Cache, u: UserId, s: StreamId, now: int) {
    var st := LoadCartState(c, u, now);
    st.items != [] && st.streamId == Some(s)
  }

  function Restamped(c: Cache, u: UserId, endedAt: int, now: int): Entry<Raw> {
    var expires := ExpiryFromEnd(endedAt);
    var st := LoadCartState(c, u, now).(expiresAt := Some(expires), updatedAt := Some(now));
    Entry(Stored(st), Some(now + 1000 * Max(1, SecondsLeft(expires, now))))
  }

  /** Every holder's cart is stamped, every stale holder dropped, everything else untouched. */
  function OnStreamEnded(c: Cache, s: StreamId, endedAt: int, now: int): Cache {
    var holders := c.Members(s);
    Store(map u | u in c.entries ::
          if u in holders && TiedTo(c, u, s, now) then Restamped(c, u, endedAt, now) else c.entries[u],
          if holders == {} then c.sets else c.sets[s := set u | u in holders && TiedTo(c, u, s, now)])
  }

  // ---------- the sweep ----------

  function SweepOne(c: Cache, streams: StreamTable, u: UserId, now: int): Cache {
    var before := LoadCartState(c, u, now);
    if before.items == [] then c else EnforceCartExpiry(c, streams, u, before, now).0
  }

  function Sweep(c: Cache, streams: StreamTable, users: seq<UserId>, now: int): Cache {
    if users == [] then c
    else SweepOne(Sweep(c, streams, users[..|users| - 1], now), streams, users[|users| - 1], now)
  }

  // ---------- buyers' changes ----------

  datatype CartError =
    | ProductNotFound | VariantRequired | UnknownVariant | ExceedsStock
    | StreamIdRequired | OtherStream | ItemNotFound

  datatype AddDto = AddDto(item: CartItem, streamId: Option<StreamId>, streamTitle: Option<string>)

  function CheckAvailable(products: Products, i: CartItem): Option<CartError> {
    if i.product !in products then Some(ProductNotFound)
    else
      var p := products[i.product];
      if HasVariants(p) then
        if i.variantId.None? || Trim(i.variantId.value) == "" then Some(VariantRequired)
        else
          var v := Find(p.variants.value, i.variantId.value);
          if v.None? then Some(UnknownVariant)
          else if i.quantity > v.value.stock then Some(ExceedsStock)
          else None
      else if i.quantity > p.stock then Some(ExceedsStock)
      else None
  }

  function VariantKey(o: Option<string>): string {
    Trim(o.GetOr(""))
  }

  function FindLine(items: seq<CartItem>, product: ProductId, key: string): (k: nat)
    ensures k <= |items|
    ensures k < |items| ==> items[k].product == product && VariantKey(items[k].variantId) == key
    ensures forall j :: 0 <= j < k ==> !(items[j].product == product && VariantKey(items[j].variantId) == key)
  {
    if items == [] then 0
    else if items[0].product == product && VariantKey(items[0].variantId) == key then 0
    else 1 + FindLine(items[1..], product, key)
  }

  function Upsert(items: seq<CartItem>, i: CartItem): seq<CartItem> {
    var line := i.(variantId := TrimOption(i.variantId), title := TrimOption(i.title));
    var k := FindLine(items, i.product, VariantKey(i.variantId));
    if k < |items| then items[k := line] else items + [line]
  }

  /** The first title with visible text. */
  function PickTitle(a: Option<string>, b: Option<string>): Option<string> {
    if a.Some? && Trim(a.value) != "" then Some(Trim(a.value))
    else if b.Some? && Trim(b.value) != "" then Some(Trim(b.value))
    else None
  }

  function AddCartItem(c: Cache, streams: StreamTable, products: Products, u: UserId, dto: AddDto, now: int):
    (Cache, Result<CartState, CartError>)
  {
    var failure := CheckAvailable(products, dto.item);
    if failure.Some? then (c, Err(failure.value))
    else
      var (c1, st) := LoadCartForUser(c, streams, u, now);
      if st.items == [] && !Given(dto.streamId) then (c1, Err(StreamIdRequired))
      else if Given(st.streamId) && Given(dto.streamId) && dto.streamId != st.streamId then (c1, Err(OtherStream))
      else
        var streamId := if st.streamId.Some? then st.streamId else dto.streamId;
        var title := PickTitle(st.streamTitle, dto.streamTitle);
        var c2 := PersistCartState(c1, streams, u,
                                   CartState(Upsert(st.items, dto.item), streamId, title, None, None), now);
        var (c3, shown) := GetCart(c2, streams, u, now);
        (c3, Ok(shown))
  }

  function UpdateCartItem(c: Cache, streams: StreamTable, u: UserId, product: ProductId, quantity: nat,
                          variantId: Option<string>, now: int): (Cache, Result<CartState, CartError>)
  {
    var (c1, st) := LoadCartForUser(c, streams, u, now);
    var k := FindLine(st.items, product, VariantKey(variantId));
    if k == |st.items| then (c1, Err(ItemNotFound))
    else
      var items := st.items[k := st.items[k].(quantity := quantity)];
      var c2 := PersistCartState(c1, streams, u,
                                 CartState(items, st.streamId, st.streamTitle, st.expiresAt, None), now);
      var (c3, shown) := GetCart(c2, streams, u, now);
      (c3, Ok(shown))
  }

  function WithoutLine(items: seq<CartItem>, product: ProductId, key: string): seq<CartItem> {
    if items == [] then []
    else (if items[0].product == product && VariantKey(items[0].variantId) == key then [] else [items[0]])
         + WithoutLine(items[1..], product, key)
  }

  function RemoveCartItem(c: Cache, streams: StreamTable, u: UserId, product: ProductId, variantId: Option<string>,
                          now: int):
    (Cache, Result<CartState, CartError>)
  {
    var (c1, st) := LoadCartForUser(c, streams, u, now);
    var next := WithoutLine(st.items, product, VariantKey(variantId));
    var c2 := PersistCartState(c1, streams, u,
                               if next != [] then CartState(next, st.streamId, st.streamTitle, st.expiresAt, None)
                               else EMPTY,
                               now);
    var (c3, shown) := GetCart(c2, streams, u, now);
    (c3, Ok(shown))
  }

  // ---------- lines of a cart ----------

  /** What the cart refuses is what an order would refuse. */
  lemma CheckAvailableExactly(products: Products, i: CartItem)
    ensures CheckAvailable(products, i).None? <==> InStock(products, i.product, i.variantId, i.quantity)
  {
    if i.product in products {
      CheckItemExactly(products, Request(i.product, i.quantity, i.variantId, i.title));
    }
  }

  /** The line is for this product and this variant, up to white space around its id. */
  predicate IsFor(l: CartItem, product: ProductId, variantId: Option<string>) {
    l.product == product
    && Trim(if l.variantId.Some? then l.variantId.value else "")
       == Trim(if variantId.Some? then variantId.value else "")
  }

  /** No two lines are for the same product and variant. */
  ghost predicate OneLineEach(items: seq<CartItem>) {
    forall j, k :: 0 <= j < k < |items| ==> !IsFor(items[j], items[k].product, items[k].variantId)
  }

  /** The item with its texts trimmed, as it is stored. */
  ghost predicate StoredAs(l: CartItem, i: CartItem) {
    && l.product == i.product && l.quantity == i.quantity && l.size == i.size && l.color == i.color
    && (if i.variantId.Some? then l.variantId == Some(Trim(i.variantId.value)) else l.variantId == None)
    && (if i.title.Some? then l.title == Some(Trim(i.title.value)) else l.title == None)
  }

  /** `after` is `before` with the item put on the first line for it, or on a new last one. */
  ghost predicate Put(before: seq<CartItem>, after: seq<CartItem>, i: CartItem) {
    exists k :: 0 <= k < |after| && PutAt(before, after, i, k)
  }

  ghost predicate PutAt(before: seq<CartItem>, after: seq<CartItem>, i: CartItem, k: nat)
    requires k < |after|
  {
    && k <= |before| && |after| == (if k < |before| then |before| else |before| + 1)
    && StoredAs(after[k], i)
    && (forall j :: 0 <= j < |before| && j != k ==> after[j] == before[j])
    && (forall j :: 0 <= j < k ==> !IsFor(before[j], i.product, i.variantId))
    && (k < |before| ==> IsFor(before[k], i.product, i.variantId))
  }

  lemma UpsertPuts(items: seq<CartItem>, i: CartItem)
    ensures Put(items, Upsert(items, i), i)
    ensures OneLineEach(items) ==> OneLineEach(Upsert(items, i))
  {
    var k := FindLine(items, i.product, VariantKey(i.variantId));
    assert PutAt(items, Upsert(items, i), i, k);
    TrimTwice(i.variantId.GetOr(""));
  }

  lemma TrimTwice(s: string)
    ensures Trim(Trim(s)) == Trim(s)
  {
    TrimIsTrimmed(s);
    TrimFixes(Trim(s));
  }

  /** `after` has exactly the lines of `before` that are not for this product and variant, in their order. */
  ghost predicate Taken(before: seq<CartItem>, after: seq<CartItem>, product: ProductId, variantId: Option<string>) {
    exists ks: seq<nat> :: TakenAt(before, after, product, variantId, ks)
  }

  ghost predicate TakenAt(before: seq<CartItem>, after: seq<CartItem>, product: ProductId, variantId: Option<string>,
                          ks: seq<nat>)
  {
    && |ks| == |after|
    && (forall j :: 0 <= j < |ks| ==> ks[j] < |before| && after[j] == before[ks[j]])
    && (forall i, j :: 0 <= i < j < |ks| ==> ks[i] < ks[j])
    && (forall k :: 0 <= k < |before| ==> (k in ks <==> !IsFor(before[k], product, variantId)))
  }

  lemma {:induction false} WithoutLineSnoc(items: seq<CartItem>, l: CartItem, product: ProductId, key: string)
    ensures WithoutLine(items + [l], product, key)
         == WithoutLine(items, product, key) + WithoutLine([l], product, key)
  {
    if items == [] {
      assert items + [l] == [l];
    } else {
      WithoutLineSnoc(items[1..], l, product, key);
      assert (items + [l])[1..] == items[1..] + [l];
    }
  }

  lemma TakenSnoc(front: seq<CartItem>, rest: seq<CartItem>, l: CartItem, product: ProductId,
                  variantId: Option<string>)
    requires Taken(front, rest, product, variantId)
    ensures Taken(front + [l], if IsFor(l, product, variantId) then rest else rest + [l], product, variantId)
  {
    hide IsFor;
    var ks: seq<nat> :| TakenAt(front, rest, product, variantId, ks);
    if IsFor(l, product, variantId) {
      assert TakenAt(front + [l], rest, product, variantId, ks);
    } else {
      var ks' := ks + [|front|];
      forall k | 0 <= k < |front + [l]|
        ensures k in ks' <==> !IsFor((front + [l])[k], product, variantId)
      {
        assert k in ks' <==> k in ks || k == |front|;
      }
      assert TakenAt(front + [l], rest + [l], product, variantId, ks');
    }
  }

  lemma {:induction false} WithoutLineTakes(items: seq<CartItem>, product: ProductId, variantId: Option<string>)
    ensures Taken(items, WithoutLine(items, product, VariantKey(variantId)), product, variantId)
  {
    var key := VariantKey(variantId);
    if items == [] {
      assert TakenAt(items, [], product, variantId, []);
    } else {
      var front, l := items[..|items| - 1], items[|items| - 1];
      assert items == front + [l];
      WithoutLineTakes(front, product, variantId);
      TakenSnoc(front, WithoutLine(front, product, key), l, product, variantId);
      WithoutLineSnoc(front, l, product, key);
      WithoutLineOne(l, product, variantId);
      hide WithoutLine, IsFor, Taken;
      assert WithoutLine(front, product, key) + [] == WithoutLine(front, product, key);
    }
  }

  lemma WithoutLineOne(l: CartItem, product: ProductId, variantId: Option<string>)
    ensures WithoutLine([l], product, VariantKey(variantId)) == if IsFor(l, product, variantId) then [] else [l]
  {
    assert [l][1..] == [];
  }

  lemma TakenKeepsOneLine(before: seq<CartItem>, after: seq<CartItem>, product: ProductId, variantId: Option<string>)
    requires OneLineEach(before) && Taken(before, after, product, variantId)
    ensures OneLineEach(after)
  {
    var ks: seq<nat> :| TakenAt(before, after, product, variantId, ks);
    forall i, j | 0 <= i < j < |after|
      ensures !IsFor(after[i], after[j].product, after[j].variantId)
    {
      assert ks[i] < ks[j];
    }
  }

  /** The cart's title stays once it is there, and is never blank. */
  lemma TitleStays(a: Option<string>, b: Option<string>)
    ensures PickTitle(a, b).Some? ==> Trim(PickTitle(a, b).value) == PickTitle(a, b).value != ""
    ensures a.Some? && Trim(a.value) != "" ==> PickTitle(a, b) == Some(Trim(a.value))
    ensures PickTitle(None, b).Some? <==> b.Some? && Trim(b.value) != ""
    ensures PickTitle(None, b).Some? ==> PickTitle(a, b).Some? && PickTitle(None, b).value == Trim(b.value)
  {
    TrimTwice(a.GetOr(""));
    TrimTwice(b.GetOr(""));
  }
}
