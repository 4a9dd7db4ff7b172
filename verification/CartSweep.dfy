/**
 The cron sweep over all carts: repeated keys do no harm, carts inside their window
 are only refreshed, and the returned number is exact. Nothing is assumed of the
 stored carts; they may be legacy, unreadable or oddly stamped.
 */
module CartSweep {
  import opened Base
  import opened Streams
  import opened Redis
  import opened Carts
  import opened CartRule

  /** Two stores hold the same entry for a user. */
  ghost predicate SameEntry(a: Cache, b: Cache, u: UserId) {
    (u in a.entries <==> u in b.entries) && (u in a.entries ==> a.entries[u] == b.entries[u])
  }

  lemma ClearOnly(c: Cache, u: UserId, s: Option<StreamId>)
    ensures OnlyUser(c, ClearCart(c, u, s), u)
  {
  }

  lemma SaveOnly(c: Cache, u: UserId, st: CartState, ttl: Option<nat>, now: int)
    ensures OnlyUser(c, Index(SaveCartState(c, u, st, ttl, now), u, st.streamId), u)
  {
  }

  lemma SweepOneOnly(c: Cache, streams: StreamTable, u: UserId, now: int)
    ensures OnlyUser(c, SweepOne(c, streams, u, now), u)
  {
    hide ClearCart, SaveCartState, Index, LoadCartState;
    var st := LoadCartState(c, u, now);
    ClearOnly(c, u, st.streamId);
    ClearOnly(c, u, None);
    if Given(st.streamId) && st.streamId.value in streams {
      var expires := ExpiryFromEnd(EffectiveEnd(streams[st.streamId.value]));
      SaveOnly(c, u, st.(updatedAt := Some(now)), None, now);
      if SecondsLeft(expires, now) > 0 {
        SaveOnly(c, u, st.(expiresAt := Some(expires), updatedAt := Some(now)), Some(SecondsLeft(expires, now)), now);
      }
    }
  }

  /** What a sweep does to a user's entry depends on that entry alone. */
  lemma SweepOneLocal(a: Cache, b: Cache, streams: StreamTable, u: UserId, now: int)
    requires SameEntry(a, b, u)
    ensures SameEntry(SweepOne(a, streams, u, now), SweepOne(b, streams, u, now), u)
  {
  }

  /** At a fixed time enforcing twice is enforcing once. */
  lemma SweepOneIdempotent(c: Cache, streams: StreamTable, u: UserId, now: int)
    ensures SweepOne(SweepOne(c, streams, u, now), streams, u, now) == SweepOne(c, streams, u, now)
  {
    var st := LoadCartState(c, u, now);
    var c1 := SweepOne(c, streams, u, now);
    if st.items != [] && c1 != c && u in c1.entries {
      var s := streams[st.streamId.value];
      SecondsLeftBounds(ExpiryFromEnd(EffectiveEnd(s)), now);
      assert LoadCartState(c1, u, now)
          == (if s.isLive then st.(updatedAt := Some(now))
              else st.(expiresAt := Some(ExpiryFromEnd(EffectiveEnd(s))), updatedAt := Some(now)));
      assert u in c1.Members(st.streamId.value) && st.streamId.value in c1.sets;
      assert c1.Members(st.streamId.value) + {u} == c1.Members(st.streamId.value);
      assert c1.sets[st.streamId.value := c1.Members(st.streamId.value)] == c1.sets;
      assert c1.entries[u := c1.entries[u]] == c1.entries;
    }
  }

  /** The entry of a scanned user is enforced once, however often the scan returned it; others are untouched. */
  lemma {:induction false} SweepEffect(c: Cache, streams: StreamTable, users: seq<UserId>, now: int, u: UserId)
    ensures SameEntry(Sweep(c, streams, users, now), if u in users then SweepOne(c, streams, u, now) else c, u)
  {
    if users != [] {
      var front, last := users[..|users| - 1], users[|users| - 1];
      assert users == front + [last];
      SweepEffect(c, streams, front, now, u);
      hide SweepOne;
      var c1 := Sweep(c, streams, front, now);
      SweepOneOnly(c1, streams, last, now);
      if last == u {
        if u in front {
          SweepOneLocal(c1, SweepOne(c, streams, u, now), streams, u, now);
          SweepOneIdempotent(c, streams, u, now);
        } else {
          SweepOneLocal(c1, c, streams, u, now);
        }
      }
    }
  }

  /** The cart carries no stamp, or one that has not passed. */
  predicate Unpassed(st: CartState, now: int) {
    st.expiresAt.Some? ==> now < st.expiresAt.value
  }

  /** May the stored cart stay at this time? */
  predicate InWindow(st: CartState, streams: StreamTable, now: int) {
    && Unpassed(st, now)
    && if Given(st.streamId) then Visible(streams, st.streamId.value, now)
       else st.updatedAt.GetOr(0) != 0 && now < st.updatedAt.value + POST_LIVE_CART_HOURS * HOUR
  }

  /** The same purchase: only stamps and times may differ. */
  predicate Refreshed(a: CartState, b: CartState) {
    a.items == b.items && a.streamId == b.streamId && a.streamTitle == b.streamTitle
  }

  lemma SweepOneOutcome(c: Cache, streams: StreamTable, u: UserId, now: int)
    ensures var before := LoadCartState(c, u, now);
            var after := LoadCartState(SweepOne(c, streams, u, now), u, now);
            if before.items == [] then SweepOne(c, streams, u, now) == c
            else if InWindow(before, streams, now) then Refreshed(after, before)
            else after == EMPTY
  {
  }

  /** What cannot be read shows nothing; a cart of the old format goes with its next read or sweep. */
  lemma OldFormatsGo(c: Cache, streams: StreamTable, u: UserId, now: int)
    requires u in c.entries && !c.entries[u].value.Stored?
    ensures LoadCartForUser(c, streams, u, now).1 == EMPTY
    ensures c.entries[u].value.Legacy? && c.entries[u].value.items != [] && Alive(c.entries[u], now) ==>
              u !in SweepOne(c, streams, u, now).entries && u !in LoadCartForUser(c, streams, u, now).0.entries
  {
  }

  lemma LoadBySameEntry(a: Cache, b: Cache, u: UserId, now: int)
    requires SameEntry(a, b, u)
    ensures LoadCartState(a, u, now) == LoadCartState(b, u, now)
  {
  }

  /**
   After sweeping all keys, at the same time: no cart is left outside its window, and
   every cart inside it still has its lines, stream and title.
   */
  lemma SweepLeavesOnlyWindows(c: Cache, streams: StreamTable, users: seq<UserId>, now: int, u: UserId)
    requires forall v :: v in c.entries ==> v in users
    ensures var before := LoadCartState(c, u, now);
            var after := LoadCartState(Sweep(c, streams, users, now), u, now);
            if before.items != [] && InWindow(before, streams, now) then Refreshed(after, before)
            else after.items == []
  {
    SweepEffect(c, streams, users, now, u);
    SweepOneOutcome(c, streams, u, now);
    LoadBySameEntry(Sweep(c, streams, users, now), if u in users then SweepOne(c, streams, u, now) else c, u, now);
  }

  ghost function Emptied(c: Cache, streams: StreamTable, users: seq<UserId>, now: int): set<UserId> {
    set u | u in users && LoadCartState(c, u, now).items != []
      && LoadCartState(Sweep(c, streams, users, now), u, now).items == []
  }

  function ClearedCount(c: Cache, streams: StreamTable, users: seq<UserId>, now: int): nat {
    if users == [] then 0
    else
      var before := Sweep(c, streams, users[..|users| - 1], now);
      var u := users[|users| - 1];
      ClearedCount(c, streams, users[..|users| - 1], now)
      + if LoadCartState(before, u, now).items != []
           && EnforceCartExpiry(before, streams, u, LoadCartState(before, u, now), now).1.items == []
        then 1 else 0
  }

  lemma EnforceResultStored(c: Cache, streams: StreamTable, u: UserId, now: int)
    ensures var st := LoadCartState(c, u, now);
            st.items != [] ==>
              (EnforceCartExpiry(c, streams, u, st, now).1.items == []
               <==> LoadCartState(SweepOne(c, streams, u, now), u, now).items == [])
  {
  }

  /** The number the sweep returns is the number of carts it emptied, repeated keys or not. */
  lemma {:induction false} SweepCountExact(c: Cache, streams: StreamTable, users: seq<UserId>, now: int)
    ensures ClearedCount(c, streams, users, now) == |Emptied(c, streams, users, now)|
  {
    hide EnforceCartExpiry, SweepOne, InWindow, SameEntry, OnlyUser, LoadCartState;
    if users != [] {
      var front, u := users[..|users| - 1], users[|users| - 1];
      assert users == front + [u];
      SweepCountExact(c, streams, front, now);
      var c1 := Sweep(c, streams, front, now);
      var before, was := LoadCartState(c1, u, now), LoadCartState(c, u, now);
      EnforceResultStored(c1, streams, u, now);
      SweepEffect(c, streams, front, now, u);
      SweepEffect(c, streams, users, now, u);
      if u in front {
        LoadBySameEntry(c1, SweepOne(c, streams, u, now), u, now);
        LoadBySameEntry(Sweep(c, streams, users, now), SweepOne(c, streams, u, now), u, now);
        SweepOneOutcome(c, streams, u, now);
      } else {
        LoadBySameEntry(c1, c, u, now);
      }
      EmptiedStep(c, streams, front, u, now);
    }
  }

  lemma EmptiedStep(c: Cache, streams: StreamTable, front: seq<UserId>, u: UserId, now: int)
    requires (front + [u])[..|front|] == front
    requires LoadCartState(c, u, now).items == [] ==> LoadCartState(Sweep(c, streams, front, now), u, now).items == []
    requires u in front && LoadCartState(Sweep(c, streams, front, now), u, now).items != [] ==>
               LoadCartState(SweepOne(Sweep(c, streams, front, now), streams, u, now), u, now).items != []
    requires u !in front ==> LoadCartState(Sweep(c, streams, front, now), u, now) == LoadCartState(c, u, now)
    ensures var c1 := Sweep(c, streams, front, now);
            var c2 := SweepOne(c1, streams, u, now);
            Emptied(c, streams, front + [u], now)
            == Emptied(c, streams, front, now)
               + if LoadCartState(c1, u, now).items != [] && LoadCartState(c2, u, now).items == [] then {u} else {}
    ensures var c1 := Sweep(c, streams, front, now);
            LoadCartState(c1, u, now).items != [] && LoadCartState(SweepOne(c1, streams, u, now), u, now).items == []
            ==> u !in Emptied(c, streams, front, now)
  {
    var c1 := Sweep(c, streams, front, now);
    var c2 := SweepOne(c1, streams, u, now);
    SweepOneOnly(c1, streams, u, now);
    SweepOneOutcome(c1, streams, u, now);
    hide SweepOne;
    assert Sweep(c, streams, front + [u], now) == c2;
    forall v | v != u
      ensures LoadCartState(c2, v, now) == LoadCartState(c1, v, now)
    {
    }
  }

  /**
   A cart that outlives enforcement passes the checkout's own window test, when its
   stream started and has a recorded end; only the listing can still refuse it.
   */
  lemma SurvivorMayCheckOut(c: Cache, streams: StreamTable, u: UserId, st: CartState, now: int,
                            products: set<ProductId>)
    requires Given(st.streamId) && EnforceCartExpiry(c, streams, u, st, now).1.items != []
    requires var s := streams[st.streamId.value]; s.startedAt.Some? && OneLife(s)
    ensures AssertStreamAndProducts(Some(streams[st.streamId.value]), now, products)
         == if products <= streams[st.streamId.value].listing then None else Some(NotListed)
  {
  }
}
