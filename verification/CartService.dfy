/**
 The cart part of the orders service, working on the key store in place. Every method
 is tied to its function in `Carts`; `CartRule`, `CartStamps` and `CartSweep` say what those mean.
 */
module CartService {
  import opened Base
  import opened Streams
  import opened Shop
  import opened Redis
  import opened Carts
  import opened CartRule
  import opened CartSweep

  class CartService {
    const redis: RedisService<UserId, Raw, StreamId, UserId>
    var streams: StreamTable

    ghost function View(): Cache
      reads redis
    {
      redis.View()
    }

    constructor (redis: RedisService<UserId, Raw, StreamId, UserId>)
      ensures this.redis == redis && streams == map[]
    {
      this.redis := redis;
      streams := map[];
    }

    method LoadState(u: UserId, now: int) returns (st: CartState)
      ensures st == LoadCartState(View(), u, now)
    {
      var raw := redis.Get(u, now);
      match raw
      case None => st := EMPTY;
      case Some(Corrupt) => st := EMPTY;
      case Some(Legacy(items)) => st := CartState(items, None, None, None, Some(0));
      case Some(Stored(state)) => st := state;
    }

    method IndexCart(u: UserId, s: Option<StreamId>)
      modifies redis
      ensures View() == Index(old(View()), u, s)
    {
      if Given(s) {
        redis.Sadd(s.value, u);
      }
    }

    method Clear(u: UserId, s: Option<StreamId>)
      modifies redis
      ensures View() == ClearCart(old(View()), u, s)
    {
      redis.Del(u);
      if Given(s) {
        redis.Srem(s.value, u);
      }
    }

    method Save(u: UserId, st: CartState, ttl: Option<nat>, now: int)
      modifies redis
      ensures View() == SaveCartState(old(View()), u, st, ttl, now)
    {
      if st.items == [] {
        Clear(u, st.streamId);
        return;
      }
      redis.Set(u, Stored(st.(updatedAt := Some(now))), ttl, now);
      IndexCart(u, st.streamId);
    }

    method Enforce(u: UserId, st: CartState, now: int) returns (r: CartState)
      modifies redis
      ensures (View(), r) == EnforceCartExpiry(old(View()), streams, u, st, now)
    {
      if st.items == [] {
        return EMPTY;
      }
      if st.expiresAt.Some? && now >= st.expiresAt.value {
        Clear(u, st.streamId);
        return EMPTY;
      }
      if !Given(st.streamId) {
        var updatedAt := st.updatedAt.GetOr(0);
        if updatedAt == 0 || now >= updatedAt + POST_LIVE_CART_HOURS * HOUR {
          Clear(u, None);
          return EMPTY;
        }
        return st;
      }
      if st.streamId.value !in streams {
        Clear(u, st.streamId);
        return EMPTY;
      }
      var stream := streams[st.streamId.value];
      if stream.isLive {
        r := st.(updatedAt := Some(now));
        Save(u, r, None, now);
        IndexCart(u, st.streamId);
        return;
      }
      var expires := ExpiryFromEnd(EffectiveEnd(stream));
      var ttl := SecondsLeft(expires, now);
      if ttl <= 0 {
        Clear(u, st.streamId);
        return EMPTY;
      }
      r := st.(expiresAt := Some(expires), updatedAt := Some(now));
      Save(u, r, Some(ttl), now);
      IndexCart(u, st.streamId);
    }

    method LoadForUser(u: UserId, now: int) returns (r: CartState)
      modifies redis
      ensures (View(), r) == LoadCartForUser(old(View()), streams, u, now)
    {
      var st := LoadState(u, now);
      r := Enforce(u, st, now);
    }

    method Persist(u: UserId, st: CartState, now: int)
      modifies redis
      ensures View() == PersistCartState(old(View()), streams, u, st, now)
    {
      if st.items == [] {
        Clear(u, st.streamId);
        return;
      }
      var enforced := Enforce(u, st, now);
      if enforced.items == [] {
        return;
      }
      if enforced.expiresAt.Some? {
        Save(u, enforced, Some(Max(1, SecondsLeft(enforced.expiresAt.value, now))), now);
      } else {
        Save(u, enforced, None, now);
      }
    }

    method Get(u: UserId, now: int) returns (r: CartState)
      modifies redis
      ensures (View(), r) == GetCart(old(View()), streams, u, now)
    {
      r := LoadForUser(u, now);
      if r.items == [] {
        return;
      }
      if r.expiresAt.Some? {
        var secondsRemaining := Max(0, SecondsLeft(r.expiresAt.value, now));
        if secondsRemaining <= 0 {
          Clear(u, r.streamId);
          return EMPTY;
        }
      }
    }

    /** The loop over the index refreshes every cart of the stream and drops stale holders. */
    method StreamEnded(s: StreamId, endedAt: int, now: int)
      requires s != ""
      modifies redis
      ensures View() == OnStreamEnded(old(View()), s, endedAt, now)
    {
      var expires := ExpiryFromEnd(endedAt);
      var ttl := Max(1, SecondsLeft(expires, now));
      var holders := redis.Smembers(s);
      ghost var c0 := View();
      var todo := holders;
      ghost var done: set<UserId> := {};
      ProgressStart(c0, s, endedAt, now);
      hide Progress;
      while todo != {}
        invariant done + todo == holders && done !! todo
        invariant Progress(c0, View(), s, endedAt, now, holders, done)
        decreases todo
      {
        var u :| u in todo;
        ghost var before := View();
        var st := LoadState(u, now);
        if st.items == [] || st.streamId != Some(s) {
          redis.Srem(s, u);
        } else {
          Save(u, st.(expiresAt := Some(expires), updatedAt := Some(now)), Some(ttl), now);
        }
        ProgressStep(c0, before, View(), s, endedAt, now, holders, done, u);
        todo := todo - {u};
        done := done + {u};
      }
      assert done == holders;
      ProgressDone(c0, View(), s, endedAt, now);
    }

    /** The scan answers with batches of keys, possibly repeating some. */
    method SweepAll(batches: seq<seq<UserId>>, now: int) returns (cleared: nat)
      modifies redis
      ensures View() == Sweep(old(View()), streams, Flatten(batches), now)
      ensures cleared == ClearedCount(old(View()), streams, Flatten(batches), now)
    {
      hide EnforceCartExpiry, LoadCartState;
      cleared := 0;
      ghost var c0 := View();
      ghost var done: seq<UserId> := [];
      for b := 0 to |batches|
        invariant done == Flatten(batches[..b])
        invariant View() == Sweep(c0, streams, done, now) && streams == old(streams)
        invariant cleared == ClearedCount(c0, streams, done, now)
      {
        var keys := batches[b];
        ghost var start := done;
        for k := 0 to |keys|
          invariant done == start + keys[..k]
          invariant View() == Sweep(c0, streams, done, now) && streams == old(streams)
          invariant cleared == ClearedCount(c0, streams, done, now)
        {
          var u := keys[k];
          ghost var next := done + [u];
          assert next[..|next| - 1] == done && next == start + keys[..k + 1];
          var before := LoadState(u, now);
          if before.items != [] {
            var after := Enforce(u, before, now);
            if after.items == [] {
              cleared := cleared + 1;
            }
          }
          done := next;
        }
        assert keys[..|keys|] == keys && batches[..b + 1][..b] == batches[..b];
      }
      assert batches[..|batches|] == batches;
    }

    method AddItem(products: Products, u: UserId, dto: AddDto, now: int) returns (r: Result<CartState, CartError>)
      modifies redis
      ensures (View(), r) == AddCartItem(old(View()), streams, products, u, dto, now)
    {
      var failure := CheckAvailable(products, dto.item);
      if failure.Some? {
        return Err(failure.value);
      }
      var st := LoadForUser(u, now);
      if st.items == [] && !Given(dto.streamId) {
        return Err(StreamIdRequired);
      }
      if Given(st.streamId) && Given(dto.streamId) && dto.streamId != st.streamId {
        return Err(OtherStream);
      }
      var items := st.items;
      var streamId := if st.streamId.Some? then st.streamId else dto.streamId;
      var title := PickTitle(st.streamTitle, dto.streamTitle);
      var line := dto.item.(variantId := TrimOption(dto.item.variantId), title := TrimOption(dto.item.title));
      var idx := FindLine(items, dto.item.product, VariantKey(dto.item.variantId));
      if idx < |items| {
        items := items[idx := line];
      } else {
        items := items + [line];
      }
      Persist(u, CartState(items, streamId, title, None, None), now);
      var shown := Get(u, now);
      r := Ok(shown);
    }

    method UpdateItem(u: UserId, product: ProductId, quantity: nat, variantId: Option<string>, now: int)
      returns (r: Result<CartState, CartError>)
      modifies redis
      ensures (View(), r) == UpdateCartItem(old(View()), streams, u, product, quantity, variantId, now)
    {
      var st := LoadForUser(u, now);
      var items := st.items;
      var idx := FindLine(items, product, VariantKey(variantId));
      if idx == |items| {
        return Err(ItemNotFound);
      }
      items := items[idx := items[idx].(quantity := quantity)];
      Persist(u, CartState(items, st.streamId, st.streamTitle, st.expiresAt, None), now);
      var shown := Get(u, now);
      r := Ok(shown);
    }

    method RemoveItem(u: UserId, product: ProductId, variantId: Option<string>, now: int)
      returns (r: Result<CartState, CartError>)
      modifies redis
      ensures (View(), r) == RemoveCartItem(old(View()), streams, u, product, variantId, now)
    {
      var st := LoadForUser(u, now);
      var next := WithoutLine(st.items, product, VariantKey(variantId));
      if next != [] {
        Persist(u, CartState(next, st.streamId, st.streamTitle, st.expiresAt, None), now);
      } else {
        Persist(u, EMPTY, now);
      }
      var shown := Get(u, now);
      r := Ok(shown);
    }
  }

  function Flatten(batches: seq<seq<UserId>>): seq<UserId> {
    if batches == [] then [] else Flatten(batches[..|batches| - 1]) + batches[|batches| - 1]
  }

  // ---------- the end hook, holder by holder ----------

  /** The store after the holders in `done` have been handled. */
  ghost predicate Progress(c0: Cache, c: Cache, s: StreamId, endedAt: int, now: int, holders: set<UserId>,
                           done: set<UserId>)
  {
    && holders == c0.Members(s) && done <= holders
    && c.entries == (map u | u in c0.entries ::
       if u in done && TiedTo(c0, u, s, now) then Restamped(c0, u, endedAt, now) else c0.entries[u])
    && c.sets == if holders == {} then c0.sets
                else c0.sets[s := set u | u in holders && (u !in done || TiedTo(c0, u, s, now))]
  }

  lemma ProgressStart(c0: Cache, s: StreamId, endedAt: int, now: int)
    ensures Progress(c0, c0, s, endedAt, now, c0.Members(s), {})
  {
    var holders := c0.Members(s);
    if holders != {} {
      var none: set<UserId> := {};
      assert (set u | u in holders && (u !in none || TiedTo(c0, u, s, now))) == holders;
      assert c0.sets[s := holders] == c0.sets;
    }
  }

  lemma ProgressStep(
    c0: Cache, c: Cache, c': Cache, s: StreamId, endedAt: int, now: int, holders: set<UserId>, done: set<UserId>,
    u: UserId)
    requires s != "" && Progress(c0, c, s, endedAt, now, holders, done) && u in holders && u !in done
    requires var st := LoadCartState(c, u, now);
             var expires := ExpiryFromEnd(endedAt);
             c' == if st.items == [] || st.streamId != Some(s) then c.Srem(s, u)
                   else SaveCartState(c, u, st.(expiresAt := Some(expires), updatedAt := Some(now)),
                                      Some(Max(1, SecondsLeft(expires, now))), now)
    ensures Progress(c0, c', s, endedAt, now, holders, done + {u})
  {
    var st := LoadCartState(c, u, now);
    assert LoadCartState(c0, u, now) == st;
    assert TiedTo(c0, u, s, now) <==> st.items != [] && st.streamId == Some(s);
    var done' := done + {u};
    var rest := set v | v in holders && (v !in done || TiedTo(c0, v, s, now));
    var rest' := set v | v in holders && (v !in done' || TiedTo(c0, v, s, now));
    assert c.Members(s) == rest;
    if TiedTo(c0, u, s, now) {
      assert rest + {u} == rest == rest';
      assert u in c0.entries;
    } else {
      assert rest - {u} == rest';
    }
    var entries' := map v | v in c0.entries ::
      if v in done' && TiedTo(c0, v, s, now) then Restamped(c0, v, endedAt, now) else c0.entries[v];
    assert c'.entries == entries';
  }

  lemma ProgressDone(c0: Cache, c: Cache, s: StreamId, endedAt: int, now: int)
    requires Progress(c0, c, s, endedAt, now, c0.Members(s), c0.Members(s))
    ensures c == OnStreamEnded(c0, s, endedAt, now)
  {
    var holders := c0.Members(s);
    assert (set u | u in holders && (u !in holders || TiedTo(c0, u, s, now)))
        == set u | u in holders && TiedTo(c0, u, s, now);
  }
}
