/**
 Carts beyond one life of their stream: rows change at will (a plan is moved, a stream is
 started or stopped again) and end hooks run at any time with any end. Then the stamp a cart
 carries can speak of a window that no longer is the stream's.
 */
module CartStamps {
  import opened Base
  import opened Streams
  import opened Shop
  import opened Redis
  import opened Carts
  import opened CartRule
  import opened CartSweep

  // ---------- both machines, for any rows ----------

  /** What the service does with carts; streams and the clock change in `Happening`. */
  predicate OnCarts(e: Event) {
    e.Swept? || e.Read? || e.Shows? || e.Adds? || e.Updates? || e.Removes? || e.ChecksOut?
  }

  type Call = e: Event | OnCarts(e) witness Read("")

  datatype Happening =
    | Waits(ms: nat)
    | Rows(streams: StreamTable)
    | Hook(stream: StreamId, endedAt: int)
    | Called(call: Call)

  function EnvAfter(env: Env, h: Happening): Env {
    match h
    case Waits(ms) => env.(now := env.now + ms)
    case Rows(streams) => env.(streams := streams)
    case _ => env
  }

  function CacheAfter(c: Cache, env: Env, h: Happening): (Cache, Response) {
    match h
    case Hook(s, endedAt) => (OnStreamEnded(c, s, endedAt, env.now), Silent)
    case Called(e) => CacheStep(c, env, e)
    case _ => (c, Silent)
  }

  /** The users whose cart a call looks at. */
  function Looked(e: Call): set<UserId> {
    match e
    case Swept(users) => set u | u in users
    case Adds(u, products, dto) => if CheckAvailable(products, dto.item).None? then {u} else {}
    case _ => {e.user}
  }

  /** A cart looked at outside its window is forgotten, even if the stream comes back. */
  function Forget(b: RuleBook, env: Env, users: set<UserId>): RuleBook {
    map u | u in b && (u in users ==> Visible(env.streams, b[u].stream, env.now)) :: b[u]
  }

  function RuleAfter(b: RuleBook, env: Env, h: Happening): (RuleBook, Response) {
    match h
    case Called(e) => RuleStep(Forget(b, env, Looked(e)), env, e)
    case _ => (b, Silent)
  }

  // ---------- the relation ----------

  /** A window a stream had while it was not live, or that an end hook spoke of. */
  type Windows = set<(StreamId, int)>

  /**
   A stored cart: its stamp is one of the windows; its key outlives all but the stamp's last
   second, and not the stamp, unless it was given the one second that every key gets.
   */
  ghost predicate EntryFrom(e: Entry<Raw>, p: Plain, known: Windows) {
    && e.value.Stored? && e.value.state.items != [] && Given(e.value.state.streamId) && PlainOf(e.value.state) == p
    && var stamp := e.value.state.expiresAt;
       && (stamp.Some? ==> (p.stream, stamp.value) in known)
       && (e.expiresAt.Some? ==>
             && stamp.Some? && e.value.state.updatedAt.Some?
             && stamp.value - 1000 < e.expiresAt.value <= Max(stamp.value, e.value.state.updatedAt.value + 1000))
  }

  /** The rule's cart is stored, alive or not; without one nothing alive is stored. */
  ghost predicate SameCart(c: Cache, b: RuleBook, u: UserId, now: int, known: Windows) {
    && (u in b ==> u in c.entries && EntryFrom(c.entries[u], b[u], known))
    && (u in c.entries && Alive(c.entries[u], now) ==> u in b)
  }

  /** The windows of this moment are known. */
  ghost predicate Knows(streams: StreamTable, now: int, known: Windows) {
    forall s :: s in streams && !streams[s].isLive && Visible(streams, s, now) ==>
      (s, ExpiryFromEnd(EffectiveEnd(streams[s]))) in known
  }

  ghost predicate Tracks(c: Cache, b: RuleBook, env: Env, known: Windows) {
    Knows(env.streams, env.now, known) && forall u :: SameCart(c, b, u, env.now, known)
  }

  /**
   The rule shows the cart, but its key has expired or its stamp has passed; while the
   stream is live the stamp's last second counts as passed.
   */
  ghost predicate Stale(c: Cache, b: RuleBook, env: Env, u: UserId) {
    && See(b, env.streams, u, env.now).Some?
    && u in c.entries && c.entries[u].value.Stored?
    && var stamp := c.entries[u].value.state.expiresAt;
       || !Alive(c.entries[u], env.now)
       || (stamp.Some? && env.now >= stamp.value)
       || (stamp.Some? && env.streams[b[u].stream].isLive && SecondsLeft(stamp.value, env.now) <= 0)
  }

  /** Whoever looks at the cart now sees what the rule shows. */
  ghost predicate Follows(c: Cache, b: RuleBook, env: Env, u: UserId) {
    ShowState(GetCart(c, env.streams, u, env.now).1) == See(b, env.streams, u, env.now)
  }

  lemma FollowsUnlessStale(c: Cache, b: RuleBook, env: Env, known: Windows, u: UserId)
    requires SameCart(c, b, u, env.now, known)
    ensures Follows(c, b, env, u) <==> !Stale(c, b, env, u)
  {
  }

  // ---------- one cart ----------

  /** May this state be kept by enforcement? */
  predicate Keeps(st: CartState, streams: StreamTable, now: int) {
    Given(st.streamId) && Visible(streams, st.streamId.value, now) && Unpassed(st, now)
  }

  lemma EnforceSame(c: Cache, streams: StreamTable, known: Windows, u: UserId, st: CartState, now: int)
    requires Knows(streams, now, known) && st.items != [] && Given(st.streamId)
    requires st.expiresAt.Some? ==> (st.streamId.value, st.expiresAt.value) in known
    ensures var (c', r) := EnforceCartExpiry(c, streams, u, st, now);
            && OnlyUser(c, c', u)
            && (!Keeps(st, streams, now) ==> r == EMPTY && u !in c'.entries)
            && (Keeps(st, streams, now) ==>
                  && r.items != [] && Given(r.streamId) && PlainOf(r) == PlainOf(st)
                  && u in c'.entries && EntryFrom(c'.entries[u], PlainOf(st), known) && Alive(c'.entries[u], now)
                  && c'.entries[u].value.state.expiresAt == r.expiresAt
                  && (streams[r.streamId.value].isLive ==> r.expiresAt == st.expiresAt)
                  && Unpassed(r, now) && (r.expiresAt.Some? ==> (r.streamId.value, r.expiresAt.value) in known)
                  && (!streams[r.streamId.value].isLive ==> SecondsLeft(r.expiresAt.GetOr(0), now) >= 1))
  {
    hide SaveCartState, ClearCart, OnlyUser, EntryFrom;
    ClearOnly(c, u, st.streamId);
    var next := st.(updatedAt := Some(now));
    if st.streamId.value in streams {
      if streams[st.streamId.value].isLive {
        StoredSame(c, known, u, next, None, now);
      } else if Keeps(st, streams, now) {
        var expires := ExpiryFromEnd(EffectiveEnd(streams[st.streamId.value]));
        SecondsLeftBounds(expires, now);
        StoredSame(c, known, u, next.(expiresAt := Some(expires)), Some(SecondsLeft(expires, now)), now);
      }
    }
    ClearGone(c, u, st.streamId);
  }

  lemma ClearGone(c: Cache, u: UserId, s: Option<StreamId>)
    ensures u !in ClearCart(c, u, s).entries
  {
  }

  /** A save with its index entry, which it already has. */
  lemma StoredSame(c: Cache, known: Windows, u: UserId, st: CartState, ttl: Option<nat>, now: int)
    requires st.items != [] && Given(st.streamId) && st.updatedAt == Some(now)
    requires st.expiresAt.Some? ==> (st.streamId.value, st.expiresAt.value) in known
    requires ttl.Some? ==> st.expiresAt.Some? && ttl.value > 0 && ttl.value == SecondsLeft(st.expiresAt.value, now)
    ensures var c' := Index(SaveCartState(c, u, st, ttl, now), u, st.streamId);
            && OnlyUser(c, c', u) && u in c'.entries
            && EntryFrom(c'.entries[u], PlainOf(st), known) && Alive(c'.entries[u], now)
            && c'.entries[u].value == Stored(st)
  {
  }

  /** Enough whole seconds are left for a change and the display after it. */
  predicate Lasts(st: CartState, streams: StreamTable, now: int) {
    && Given(st.streamId)
    && Unpassed(st, now)
    && (st.expiresAt.Some? && Visible(streams, st.streamId.value, now) && streams[st.streamId.value].isLive ==>
          SecondsLeft(st.expiresAt.value, now) >= 1)
  }

  lemma LoadSame(c: Cache, b: RuleBook, env: Env, known: Windows, u: UserId)
    requires Knows(env.streams, env.now, known) && SameCart(c, b, u, env.now, known) && !Stale(c, b, env, u)
    ensures var (c', r) := LoadCartForUser(c, env.streams, u, env.now);
            var b' := Forget(b, env, {u});
            && OnlyUser(c, c', u) && SameCart(c', b', u, env.now, known) && !Stale(c', b', env, u)
            && ShowState(r) == See(b, env.streams, u, env.now) == See(b', env.streams, u, env.now)
            && (r.items == [] ==> r == EMPTY)
            && (r.items != [] ==>
                  && u in b' && Lasts(r, env.streams, env.now)
                  && (r.expiresAt.Some? ==> (r.streamId.value, r.expiresAt.value) in known))
  {
    var st := LoadCartState(c, u, env.now);
    if st.items != [] {
      EnforceSame(c, env.streams, known, u, st, env.now);
    }
  }

  lemma GetSame(c: Cache, b: RuleBook, env: Env, known: Windows, u: UserId)
    requires Knows(env.streams, env.now, known) && SameCart(c, b, u, env.now, known) && !Stale(c, b, env, u)
    ensures GetCart(c, env.streams, u, env.now) == LoadCartForUser(c, env.streams, u, env.now)
  {
    var st := LoadCartState(c, u, env.now);
    if st.items != [] {
      EnforceSame(c, env.streams, known, u, st, env.now);
    }
  }

  lemma SaveSame(c: Cache, known: Windows, u: UserId, st: CartState, ttl: Option<nat>, now: int)
    requires st.items != [] && Given(st.streamId)
    requires st.expiresAt.Some? ==> (st.streamId.value, st.expiresAt.value) in known
    requires ttl.Some? ==> st.expiresAt.Some? && ttl.value == Max(1, SecondsLeft(st.expiresAt.value, now))
    ensures var c' := SaveCartState(c, u, st, ttl, now);
            && OnlyUser(c, c', u) && u in c'.entries
            && EntryFrom(c'.entries[u], PlainOf(st), known) && Alive(c'.entries[u], now)
            && c'.entries[u].value.state.expiresAt == st.expiresAt
  {
    if st.expiresAt.Some? {
      SecondsLeftBounds(st.expiresAt.value, now);
    }
  }

  lemma PersistSame(c: Cache, b: RuleBook, env: Env, known: Windows, u: UserId, st: CartState)
    requires Knows(env.streams, env.now, known) && st.items != [] && Lasts(st, env.streams, env.now)
    requires st.expiresAt.Some? ==> (st.streamId.value, st.expiresAt.value) in known
    ensures var c' := PersistCartState(c, env.streams, u, st, env.now);
            var b' := Keep(b, env.streams, u, PlainOf(st), env.now);
            OnlyUser(c, c', u) && SameCart(c', b', u, env.now, known) && !Stale(c', b', env, u)
  {
    hide EnforceCartExpiry, SaveCartState, OnlyUser, EntryFrom, SecondsLeft, EffectiveEnd, ExpiryFromEnd;
    EnforceSame(c, env.streams, known, u, st, env.now);
    var (c1, r) := EnforceCartExpiry(c, env.streams, u, st, env.now);
    if r.items != [] {
      var ttl := if r.expiresAt.Some? then Some(Max(1, SecondsLeft(r.expiresAt.value, env.now))) else None;
      SaveSame(c1, known, u, r, ttl, env.now);
      var c' := SaveCartState(c1, u, r, ttl, env.now);
      assert c' == PersistCartState(c, env.streams, u, st, env.now);
      OnlyUserTrans(c, c1, c', u);
      EntryShape(c'.entries[u], PlainOf(st), known);
    }
  }

  lemma EntryShape(e: Entry<Raw>, p: Plain, known: Windows)
    requires EntryFrom(e, p, known)
    ensures e.value.Stored? && e.value.state.items != [] && PlainOf(e.value.state) == p
  {
  }

  // ---------- calls ----------

  /** Only this user's cart moves under the rule. */
  ghost predicate OnlyBook(b: RuleBook, b': RuleBook, u: UserId) {
    forall v :: v != u ==> (v in b <==> v in b') && (v in b ==> b'[v] == b[v])
  }

  lemma OneUserTracks(c: Cache, c': Cache, b: RuleBook, b': RuleBook, env: Env, known: Windows, u: UserId)
    requires Tracks(c, b, env, known) && OnlyUser(c, c', u) && OnlyBook(b, b', u)
    requires SameCart(c', b', u, env.now, known)
    ensures Tracks(c', b', env, known)
    ensures forall v :: v != u ==> (Stale(c', b', env, v) <==> Stale(c, b, env, v))
  {
    forall v | v != u
      ensures SameCart(c', b', v, env.now, known)
      ensures Stale(c', b', env, v) <==> Stale(c, b, env, v)
    {
      assert SameCart(c, b, v, env.now, known);
      assert v in b <==> v in b';
      assert v in c.entries <==> v in c'.entries;
    }
  }

  lemma LookTracks(c: Cache, b: RuleBook, env: Env, known: Windows, u: UserId)
    requires Tracks(c, b, env, known) && !Stale(c, b, env, u)
    ensures var (c', r) := LoadCartForUser(c, env.streams, u, env.now);
            var b' := Forget(b, env, {u});
            && Tracks(c', b', env, known) && ShowState(r) == See(b', env.streams, u, env.now)
            && (forall v :: !Stale(c, b, env, v) ==> !Stale(c', b', env, v))
            && GetCart(c, env.streams, u, env.now) == (c', r)
            && (r.items == [] ==> r == EMPTY)
            && (r.items != [] ==>
                  && u in b' && Lasts(r, env.streams, env.now)
                  && (r.expiresAt.Some? ==> (r.streamId.value, r.expiresAt.value) in known))
  {
    LoadSame(c, b, env, known, u);
    GetSame(c, b, env, known, u);
    hide LoadCartForUser, Stale, SameCart;
    OneUserTracks(c, LoadCartForUser(c, env.streams, u, env.now).0, b, Forget(b, env, {u}), env, known, u);
  }

  lemma {:induction false} SweepTracks(c: Cache, b: RuleBook, env: Env, known: Windows, users: seq<UserId>)
    requires Tracks(c, b, env, known) && forall u :: u in users ==> !Stale(c, b, env, u)
    ensures var (c', b') := (Sweep(c, env.streams, users, env.now), Forget(b, env, set u | u in users));
            Tracks(c', b', env, known) && forall v :: !Stale(c, b, env, v) ==> !Stale(c', b', env, v)
  {
    hide Tracks, Stale;
    if users == [] {
      assert Forget(b, env, set u | u in users) == b;
    } else {
      var front, last := users[..|users| - 1], users[|users| - 1];
      assert users == front + [last];
      SweepTracks(c, b, env, known, front);
      var c1, b1 := Sweep(c, env.streams, front, env.now), Forget(b, env, set u | u in front);
      LookTracks(c1, b1, env, known, last);
      assert Forget(b1, env, {last}) == Forget(b, env, set u | u in users);
      SweepIsLook(c1, env.streams, last, env.now);
    }
  }

  lemma SweepIsLook(c: Cache, streams: StreamTable, u: UserId, now: int)
    ensures SweepOne(c, streams, u, now) == LoadCartForUser(c, streams, u, now).0
  {
  }

  /** A change is persisted and shown. */
  lemma ChangeTracks(c: Cache, b: RuleBook, env: Env, known: Windows, u: UserId, st: CartState)
    requires Tracks(c, b, env, known) && st.items != [] && Lasts(st, env.streams, env.now)
    requires st.expiresAt.Some? ==> (st.streamId.value, st.expiresAt.value) in known
    ensures var c1 := PersistCartState(c, env.streams, u, st, env.now);
            var (c2, shown) := GetCart(c1, env.streams, u, env.now);
            var b' := Keep(b, env.streams, u, PlainOf(st), env.now);
            Tracks(c2, b', env, known) && ShowState(shown) == See(b', env.streams, u, env.now)
  {
    hide PersistCartState, GetCart, LoadCartForUser, Stale, SameCart, Lasts;
    var c1 := PersistCartState(c, env.streams, u, st, env.now);
    var b' := Keep(b, env.streams, u, PlainOf(st), env.now);
    PersistSame(c, b, env, known, u, st);
    OneUserTracks(c, c1, b, b', env, known, u);
    LookTracks(c1, b', env, known, u);
    assert Forget(b', env, {u}) == b';
  }

  lemma AddTracks(c: Cache, b: RuleBook, env: Env, known: Windows, u: UserId, products: Products, dto: AddDto)
    requires Tracks(c, b, env, known) && (CheckAvailable(products, dto.item).None? ==> !Stale(c, b, env, u))
    ensures var (c', r) := AddCartItem(c, env.streams, products, u, dto, env.now);
            var (b', q) := RuleAdd(Forget(b, env, Looked(Adds(u, products, dto))), env.streams, products, u, dto,
                                   env.now);
            Tracks(c', b', env, known) && AnswerState(r) == Answer(q)
  {
    hide LoadCartForUser, Stale, Tracks, GetCart, PersistCartState, CheckAvailable, Upsert, PickTitle, Visible;
    if CheckAvailable(products, dto.item).None? {
      LookTracks(c, b, env, known, u);
        var (c1, st) := LoadCartForUser(c, env.streams, u, env.now);
      UpsertNonEmpty(st.items, dto.item);
      var next := CartState(Upsert(st.items, dto.item), if st.streamId.Some? then st.streamId else dto.streamId,
                            PickTitle(st.streamTitle, dto.streamTitle), None, None);
      if (st.items != [] || Given(dto.streamId)) &&
         !(Given(st.streamId) && Given(dto.streamId) && dto.streamId != st.streamId) {
        ChangeTracks(c1, Forget(b, env, {u}), env, known, u, next);
      }
    } else {
      assert Forget(b, env, {}) == b;
    }
  }

  lemma UpdateTracks(c: Cache, b: RuleBook, env: Env, known: Windows, u: UserId, product: ProductId, quantity: nat,
                     variantId: Option<string>)
    requires Tracks(c, b, env, known) && !Stale(c, b, env, u)
    ensures var (c', r) := UpdateCartItem(c, env.streams, u, product, quantity, variantId, env.now);
            var (b', q) := RuleUpdate(Forget(b, env, {u}), env.streams, u, product, quantity, variantId, env.now);
            Tracks(c', b', env, known) && AnswerState(r) == Answer(q)
  {
    LookTracks(c, b, env, known, u);
    hide LoadCartForUser, Stale, Tracks, GetCart, PersistCartState;
    var (c1, st) := LoadCartForUser(c, env.streams, u, env.now);
    var k := FindLine(st.items, product, VariantKey(variantId));
    if k < |st.items| {
      var next := CartState(st.items[k := st.items[k].(quantity := quantity)],
                            st.streamId, st.streamTitle, st.expiresAt, None);
      ChangeTracks(c1, Forget(b, env, {u}), env, known, u, next);
    }
  }

  lemma RemoveTracks(c: Cache, b: RuleBook, env: Env, known: Windows, u: UserId, product: ProductId,
                     variantId: Option<string>)
    requires Tracks(c, b, env, known) && !Stale(c, b, env, u)
    ensures var (c', r) := RemoveCartItem(c, env.streams, u, product, variantId, env.now);
            var (b', q) := RuleRemove(Forget(b, env, {u}), env.streams, u, product, variantId, env.now);
            Tracks(c', b', env, known) && AnswerState(r) == Answer(q)
  {
    LookTracks(c, b, env, known, u);
    var (c1, st) := LoadCartForUser(c, env.streams, u, env.now);
    var next := WithoutLine(st.items, product, VariantKey(variantId));
    var b1 := Forget(b, env, {u});
    hide LoadCartForUser, Stale, Tracks, GetCart, PersistCartState;
    if next != [] {
      ChangeTracks(c1, b1, env, known, u, CartState(next, st.streamId, st.streamTitle, st.expiresAt, None));
    } else {
      ClearedTracks(c1, b1, env, known, u, None);
    }
  }

  lemma ClearedTracks(c: Cache, b: RuleBook, env: Env, known: Windows, u: UserId, s: Option<StreamId>)
    requires Tracks(c, b, env, known)
    ensures var c' := ClearCart(c, u, s);
            && Tracks(c', b - {u}, env, known)
            && ShowState(GetCart(c', env.streams, u, env.now).1) == None
            && GetCart(c', env.streams, u, env.now).0 == c'
  {
    ClearOnly(c, u, s);
    OneUserTracks(c, ClearCart(c, u, s), b, b - {u}, env, known, u);
  }

  lemma OrderTracks(c: Cache, b: RuleBook, env: Env, known: Windows, u: UserId)
    requires Tracks(c, b, env, known) && !Stale(c, b, env, u)
    ensures var (c', r) := CacheStep(c, env, ChecksOut(u));
            var (b', q) := RuleStep(Forget(b, env, {u}), env, ChecksOut(u));
            Tracks(c', b', env, known) && r == q
  {
    LookTracks(c, b, env, known, u);
    LoadSame(c, b, env, known, u);
    hide LoadCartForUser, Stale, GetCart;
    var (c1, st) := GetCart(c, env.streams, u, env.now);
    var b1 := Forget(b, env, {u});
    if st.items != [] {
      ClearedTracks(c1, b1, env, known, u, st.streamId);
    } else {
      assert SameCart(c1, b1, u, env.now, known);
      assert SameCart(c1, b1 - {u}, u, env.now, known);
      OneUserTracks(c1, c1, b1, b1 - {u}, env, known, u);
    }
  }

  lemma CallTracks(c: Cache, b: RuleBook, env: Env, known: Windows, e: Call)
    requires Tracks(c, b, env, known) && forall u :: u in Looked(e) ==> !Stale(c, b, env, u)
    ensures var (c', r) := CacheStep(c, env, e);
            var (b', q) := RuleStep(Forget(b, env, Looked(e)), env, e);
            Tracks(c', b', env, known) && r == q
  {
    match e
    case Swept(users) => SweepTracks(c, b, env, known, users);
    case Read(u) => LookTracks(c, b, env, known, u);
    case Shows(u) => LookTracks(c, b, env, known, u);
    case Adds(u, products, dto) => AddTracks(c, b, env, known, u, products, dto);
    case Updates(u, p, q, v) => UpdateTracks(c, b, env, known, u, p, q, v);
    case Removes(u, p, v) => RemoveTracks(c, b, env, known, u, p, v);
    case ChecksOut(u) => OrderTracks(c, b, env, known, u);
  }

  // ---------- runs ----------

  /** The windows a buyer's cart can be stamped with while these rows stand. */
  function OffAir(streams: StreamTable, now: int): Windows {
    set s | s in streams && !streams[s].isLive && Visible(streams, s, now) ::
      (s, ExpiryFromEnd(EffectiveEnd(streams[s])))
  }

  function KnownAfter(known: Windows, env: Env, h: Happening): Windows {
    match h
    case Rows(streams) => known + OffAir(streams, env.now)
    case Hook(s, endedAt) => known + {(s, ExpiryFromEnd(endedAt))}
    case _ => known
  }

  /** One happening keeps the relation, and answers agree, if no cart looked at is stale. */
  lemma HappeningTracks(c: Cache, b: RuleBook, env: Env, known: Windows, h: Happening)
    requires Tracks(c, b, env, known)
    requires h.Called? ==> forall u :: u in Looked(h.call) ==> !Stale(c, b, env, u)
    ensures var (c', r) := CacheAfter(c, env, h);
            var (b', q) := RuleAfter(b, env, h);
            Tracks(c', b', EnvAfter(env, h), KnownAfter(known, env, h)) && r == q
  {
    match h
    case Called(e) => CallTracks(c, b, env, known, e);
    case Hook(s, endedAt) => HookTracks(c, b, env, known, s, endedAt);
    case _ =>
      var env', known' := EnvAfter(env, h), KnownAfter(known, env, h);
      forall u ensures SameCart(c, b, u, env'.now, known') {
        assert SameCart(c, b, u, env.now, known);
      }
  }

  lemma HookTracks(c: Cache, b: RuleBook, env: Env, known: Windows, s: StreamId, endedAt: int)
    requires Tracks(c, b, env, known)
    ensures Tracks(OnStreamEnded(c, s, endedAt, env.now), b, env, known + {(s, ExpiryFromEnd(endedAt))})
  {
    var c' := OnStreamEnded(c, s, endedAt, env.now);
    var known' := known + {(s, ExpiryFromEnd(endedAt))};
    SecondsLeftBounds(ExpiryFromEnd(endedAt), env.now);
    forall u ensures SameCart(c', b, u, env.now, known') {
      assert SameCart(c, b, u, env.now, known);
    }
  }

  function EnvOver(env: Env, hs: seq<Happening>): Env {
    if hs == [] then env else EnvAfter(EnvOver(env, hs[..|hs| - 1]), hs[|hs| - 1])
  }

  function KnownOver(known: Windows, env: Env, hs: seq<Happening>): Windows {
    if hs == [] then known
    else KnownAfter(KnownOver(known, env, hs[..|hs| - 1]), EnvOver(env, hs[..|hs| - 1]), hs[|hs| - 1])
  }

  function CacheOver(c: Cache, env: Env, hs: seq<Happening>): (Cache, seq<Response>) {
    if hs == [] then (c, [])
    else
      var (c1, rs) := CacheOver(c, env, hs[..|hs| - 1]);
      var (c2, r) := CacheAfter(c1, EnvOver(env, hs[..|hs| - 1]), hs[|hs| - 1]);
      (c2, rs + [r])
  }

  function RuleOver(b: RuleBook, env: Env, hs: seq<Happening>): (RuleBook, seq<Response>) {
    if hs == [] then (b, [])
    else
      var (b1, rs) := RuleOver(b, env, hs[..|hs| - 1]);
      var (b2, r) := RuleAfter(b1, EnvOver(env, hs[..|hs| - 1]), hs[|hs| - 1]);
      (b2, rs + [r])
  }

  /** At every moment of the run, whoever looks sees what the rule shows. */
  ghost predicate AlwaysFollows(c: Cache, b: RuleBook, env: Env, hs: seq<Happening>) {
    && (hs == [] || AlwaysFollows(c, b, env, hs[..|hs| - 1]))
    && forall u :: Follows(CacheOver(c, env, hs).0, RuleOver(b, env, hs).0, EnvOver(env, hs), u)
  }

  /** At no moment is a cart the rule shows stale. */
  ghost predicate NeverStale(c: Cache, b: RuleBook, env: Env, hs: seq<Happening>) {
    && (hs == [] || NeverStale(c, b, env, hs[..|hs| - 1]))
    && forall u :: !Stale(CacheOver(c, env, hs).0, RuleOver(b, env, hs).0, EnvOver(env, hs), u)
  }

  lemma {:induction false} TracksOver(c: Cache, b: RuleBook, env: Env, known: Windows, hs: seq<Happening>)
    requires Tracks(c, b, env, known) && (hs == [] || NeverStale(c, b, env, hs[..|hs| - 1]))
    ensures Tracks(CacheOver(c, env, hs).0, RuleOver(b, env, hs).0, EnvOver(env, hs), KnownOver(known, env, hs))
    ensures CacheOver(c, env, hs).1 == RuleOver(b, env, hs).1
  {
    if hs != [] {
      var front := hs[..|hs| - 1];
      TracksOver(c, b, env, known, front);
      hide Tracks, Stale, CacheAfter, RuleAfter, EnvAfter, KnownAfter;
      HappeningTracks(CacheOver(c, env, front).0, RuleOver(b, env, front).0, EnvOver(env, front),
                      KnownOver(known, env, front), hs[|hs| - 1]);
    }
  }

  /**
   Over every run with any rows the cart seen is the rule's throughout exactly when at no
   moment a cart the rule shows carries a passed stamp or an expired key. Then all answers
   are the rule's too.
   */
  lemma {:induction false} AlwaysFollowsExactly(c: Cache, b: RuleBook, env: Env, known: Windows, hs: seq<Happening>)
    requires Tracks(c, b, env, known)
    ensures AlwaysFollows(c, b, env, hs) <==> NeverStale(c, b, env, hs)
    ensures NeverStale(c, b, env, hs) ==> CacheOver(c, env, hs).1 == RuleOver(b, env, hs).1
  {
    if hs != [] {
      AlwaysFollowsExactly(c, b, env, known, hs[..|hs| - 1]);
    }
    if hs == [] || NeverStale(c, b, env, hs[..|hs| - 1]) {
      TracksOver(c, b, env, known, hs);
      var (c', b', env') := (CacheOver(c, env, hs).0, RuleOver(b, env, hs).0, EnvOver(env, hs));
      hide Stale, Follows, CacheOver, RuleOver, EnvOver;
      forall u ensures Follows(c', b', env', u) <==> !Stale(c', b', env', u) {
        FollowsUnlessStale(c', b', env', KnownOver(known, env, hs), u);
      }
    }
  }

  lemma EmptyTracks(env: Env)
    ensures Tracks(Store(map[], map[]), map[], env, OffAir(env.streams, env.now))
  {
  }

  /** No stream is shown in the last second of, or after, a window it had off air or a hook spoke of. */
  ghost predicate Honoured(env: Env, known: Windows) {
    forall w :: w in known && Visible(env.streams, w.0, env.now) ==> env.now <= w.1 - 1000
  }

  ghost predicate AlwaysHonoured(env: Env, known: Windows, hs: seq<Happening>) {
    && (hs == [] || AlwaysHonoured(env, known, hs[..|hs| - 1]))
    && Honoured(EnvOver(env, hs), KnownOver(known, env, hs))
  }

  lemma HonouredIsFresh(c: Cache, b: RuleBook, env: Env, known: Windows, u: UserId)
    requires Tracks(c, b, env, known) && Honoured(env, known)
    ensures !Stale(c, b, env, u)
  {
    assert SameCart(c, b, u, env.now, known);
    if u in b && u in c.entries && c.entries[u].value.Stored? && c.entries[u].value.state.expiresAt.Some? {
      SecondsLeftBounds(c.entries[u].value.state.expiresAt.value, env.now);
    }
  }

  /**
   What those who change the rows can guarantee, whatever buyers do: no cart is ever stale
   if no stream outlives a window it once had off air.
   */
  lemma {:induction false} HonouredWindowsSuffice(c: Cache, b: RuleBook, env: Env, known: Windows, hs: seq<Happening>)
    requires Tracks(c, b, env, known) && AlwaysHonoured(env, known, hs)
    ensures NeverStale(c, b, env, hs)
  {
    if hs != [] {
      HonouredWindowsSuffice(c, b, env, known, hs[..|hs| - 1]);
    }
    TracksOver(c, b, env, known, hs);
    hide Tracks, Stale, Honoured, CacheOver, RuleOver, EnvOver, KnownOver;
    forall u ensures !Stale(CacheOver(c, env, hs).0, RuleOver(b, env, hs).0, EnvOver(env, hs), u) {
      HonouredIsFresh(CacheOver(c, env, hs).0, RuleOver(b, env, hs).0, EnvOver(env, hs), KnownOver(known, env, hs), u);
    }
  }

  /**
   The guard is needed: in any reachable state, a cart read while its stream is off air
   goes stale exactly when the stream, set live, outlives that window but its last second.
   */
  lemma OutlivedGoesStale(c: Cache, b: RuleBook, env: Env, known: Windows, u: UserId, live: Stream, ms: nat)
    requires Tracks(c, b, env, known) && See(b, env.streams, u, env.now).Some? && !Stale(c, b, env, u)
    requires !env.streams[b[u].stream].isLive && live.isLive
    ensures var s := b[u].stream;
            var hs := [Called(Read(u)), Rows(env.streams[s := live]), Waits(ms)];
            && See(RuleOver(b, env, hs).0, EnvOver(env, hs).streams, u, EnvOver(env, hs).now) == Some(b[u])
            && (Stale(CacheOver(c, env, hs).0, RuleOver(b, env, hs).0, EnvOver(env, hs), u)
                <==> env.now + ms > ExpiryFromEnd(EffectiveEnd(env.streams[s])) - 1000)
  {
    var s := b[u].stream;
    var read, rows, wait := Called(Read(u)), Rows(env.streams[s := live]), Waits(ms);
    OverSnoc(c, b, env, [], read);
    OverSnoc(c, b, env, [read], rows);
    OverSnoc(c, b, env, [read, rows], wait);
    assert [] + [read] == [read] && [read] + [rows] == [read, rows] && [read, rows] + [wait] == [read, rows, wait];
    var hs := [read, rows, wait];
    assert SameCart(c, b, u, env.now, known);
    LoadSame(c, b, env, known, u);
    SecondsLeftBounds(ExpiryFromEnd(EffectiveEnd(env.streams[s])), env.now);
    SecondsLeftBounds(ExpiryFromEnd(EffectiveEnd(env.streams[s])), env.now + ms);
    var c1 := LoadCartForUser(c, env.streams, u, env.now).0;
    ReadOffAir(c, b, env, known, u);
    hide LoadCartForUser;
    assert CacheOver(c, env, hs).0 == c1;
    assert RuleOver(b, env, hs).0 == Forget(b, env, {u});
    assert EnvOver(env, hs) == env.(streams := env.streams[s := live], now := env.now + ms);
  }

  lemma OverSnoc(c: Cache, b: RuleBook, env: Env, hs: seq<Happening>, h: Happening)
    ensures EnvOver(env, hs + [h]) == EnvAfter(EnvOver(env, hs), h)
    ensures CacheOver(c, env, hs + [h]).0 == CacheAfter(CacheOver(c, env, hs).0, EnvOver(env, hs), h).0
    ensures RuleOver(b, env, hs + [h]).0 == RuleAfter(RuleOver(b, env, hs).0, EnvOver(env, hs), h).0
  {
    assert (hs + [h])[..|hs|] == hs;
  }

  lemma ReadOffAir(c: Cache, b: RuleBook, env: Env, known: Windows, u: UserId)
    requires SameCart(c, b, u, env.now, known) && See(b, env.streams, u, env.now).Some? && !Stale(c, b, env, u)
    requires !env.streams[b[u].stream].isLive
    ensures var c' := LoadCartForUser(c, env.streams, u, env.now).0;
            var end := ExpiryFromEnd(EffectiveEnd(env.streams[b[u].stream]));
            && u in c'.entries && c'.entries[u].value.Stored? && c'.entries[u].value.state.expiresAt == Some(end)
            && c'.entries[u].expiresAt == Some(env.now + 1000 * SecondsLeft(end, env.now))
  {
    SecondsLeftBounds(ExpiryFromEnd(EffectiveEnd(env.streams[b[u].stream])), env.now);
  }

  // ---------- one stored cart ----------

  /**
   For any stored state and any stream: the answer is the rule's unless the cart
   carries a stamp that has passed while the rule still shows it.
   */
  lemma EnforceMeetsRuleExactly(c: Cache, streams: StreamTable, u: UserId, st: CartState, now: int)
    requires st.items != [] && Given(st.streamId)
    ensures var r := EnforceCartExpiry(c, streams, u, st, now).1;
            var rule := if Visible(streams, st.streamId.value, now) then Some(PlainOf(st)) else None;
            ShowState(r) == rule
            <==> !(Visible(streams, st.streamId.value, now) && st.expiresAt.Some? && now >= st.expiresAt.value)
  {
  }

  /**
   A stamp written while the stream was not live outlives what it was computed from. If
   the stream is live at the next read, the cart is lost exactly when the old window's
   whole seconds are over, however long the live window still runs.
   */
  lemma OldStampDecides(c: Cache, u: UserId, s: StreamId, before: Stream, live: Stream, seen: int, later: int)
    requires s != "" && !before.isLive && live.isLive && seen <= later
    requires TiedTo(c, u, s, seen) && Unpassed(LoadCartState(c, u, seen), seen)
    requires SecondsLeft(ExpiryFromEnd(EffectiveEnd(before)), seen) > 0
    ensures var stamped := LoadCartForUser(c, map[s := before], u, seen).0;
            var shown := LoadCartForUser(stamped, map[s := live], u, later).1;
            var left := SecondsLeft(ExpiryFromEnd(EffectiveEnd(before)), seen);
            && Visible(map[s := live], s, later)
            && (shown.items == [] <==> later >= seen + 1000 * left)
  {
  }

  /** While the stream is live, adding drops the stamp and updating keeps it, with the key that goes with it. */
  lemma AddDropsStamp(c: Cache, streams: StreamTable, u: UserId, products: Products, dto: AddDto, product: ProductId,
                      quantity: nat, variantId: Option<string>, now: int)
    requires var st := LoadCartState(c, u, now);
             && Given(st.streamId) && st.items != [] && st.streamId.value in streams
             && streams[st.streamId.value].isLive
             && (st.expiresAt.Some? ==> SecondsLeft(st.expiresAt.value, now) >= 1)
    ensures var (c', r) := AddCartItem(c, streams, products, u, dto, now);
            r.Ok? ==> LoadCartState(c', u, now).expiresAt == None && r.value.expiresAt == None
    ensures var (c', r) := UpdateCartItem(c, streams, u, product, quantity, variantId, now);
            r.Ok? ==> LoadCartState(c', u, now).expiresAt == r.value.expiresAt == LoadCartState(c, u, now).expiresAt
  {
    var st := LoadCartState(c, u, now);
    var loaded := LoadCartForUser(c, streams, u, now);
    LoadLive(c, streams, u, st, now);
    UpsertNonEmpty(st.items, dto.item);
    hide LoadCartForUser, LoadCartState, Upsert, PickTitle, CheckAvailable, FindLine, GetCart, PersistCartState;
    var added := CartState(Upsert(st.items, dto.item), st.streamId, PickTitle(st.streamTitle, dto.streamTitle), None,
                           None);
    PersistLive(loaded.0, streams, u, added, now);
    var k := FindLine(st.items, product, VariantKey(variantId));
    if k < |st.items| {
      var updated := CartState(st.items[k := st.items[k].(quantity := quantity)], st.streamId, st.streamTitle,
                               st.expiresAt, None);
      PersistLive(loaded.0, streams, u, updated, now);
    }
  }

  lemma LoadLive(c: Cache, streams: StreamTable, u: UserId, st: CartState, now: int)
    requires st == LoadCartState(c, u, now) && Given(st.streamId) && st.items != [] && st.streamId.value in streams
    requires streams[st.streamId.value].isLive && (st.expiresAt.Some? ==> SecondsLeft(st.expiresAt.value, now) >= 1)
    ensures LoadCartForUser(c, streams, u, now).1 == st.(updatedAt := Some(now))
  {
  }

  lemma PersistLive(c: Cache, streams: StreamTable, u: UserId, st: CartState, now: int)
    requires Given(st.streamId) && st.items != [] && st.streamId.value in streams && streams[st.streamId.value].isLive
    requires st.expiresAt.Some? ==> SecondsLeft(st.expiresAt.value, now) >= 1
    ensures var c1 := PersistCartState(c, streams, u, st, now);
            var (c2, shown) := GetCart(c1, streams, u, now);
            LoadCartState(c2, u, now).expiresAt == shown.expiresAt == st.expiresAt
  {
    var c1 := PersistCartState(c, streams, u, st, now);
    var stored := st.(updatedAt := Some(now));
    assert LoadCartState(c1, u, now) == stored;
    LoadLive(c1, streams, u, stored, now);
  }

  /** The user's cart is stored with this stamp and without expiry. */
  ghost predicate Stamped(c: Cache, u: UserId, s: StreamId, stamp: int) {
    && u in c.entries && c.entries[u].expiresAt.None? && c.entries[u].value.Stored?
    && var st := c.entries[u].value.state;
       st.items != [] && st.streamId == Some(s) && st.expiresAt == Some(stamp)
  }

  /** A read of the cart, or a sweep reaching it, at a time, with the stream's row of that time. */
  datatype Pass = Pass(row: Stream, now: int)

  function Passes(c: Cache, u: UserId, s: StreamId, ps: seq<Pass>): Cache {
    if ps == [] then c
    else
      var last := ps[|ps| - 1];
      LoadCartForUser(Passes(c, u, s, ps[..|ps| - 1]), map[s := last.row], u, last.now).0
  }

  /** While the stream is live no read and no sweep renews a stamp: it stays until it has passed. */
  lemma {:induction false} StampStays(c: Cache, u: UserId, s: StreamId, stamp: int, ps: seq<Pass>)
    requires s != "" && Stamped(c, u, s, stamp)
    requires forall k :: 0 <= k < |ps| ==> ps[k].row.isLive && ps[k].now < stamp
    ensures Stamped(Passes(c, u, s, ps), u, s, stamp)
  {
    if ps != [] {
      StampStays(c, u, s, stamp, ps[..|ps| - 1]);
    }
  }

  lemma StampedFirst(c: Cache, u: UserId, s: StreamId, before: Stream, seen: int, first: Pass)
    requires s != "" && TiedTo(c, u, s, seen) && Unpassed(LoadCartState(c, u, seen), seen)
    requires !before.isLive && first.row.isLive
    requires var left := SecondsLeft(ExpiryFromEnd(EffectiveEnd(before)), seen);
             left > 0 && first.now < seen + 1000 * left
    ensures var stamped := LoadCartForUser(c, map[s := before], u, seen).0;
            var live := LoadCartForUser(stamped, map[s := first.row], u, first.now).0;
            Stamped(live, u, s, ExpiryFromEnd(EffectiveEnd(before)))
  {
  }

  /**
   So a cart read before a planned start keeps the window of that plan. Once the stream is
   live, however its start is moved then and however often the cart is read or swept, the
   cart is lost exactly when that window is over.
   */
  lemma PlannedStampDecides(
    c: Cache, u: UserId, s: StreamId, planned: Stream, seen: int, first: Pass, ps: seq<Pass>, later: Pass)
    requires s != "" && TiedTo(c, u, s, seen) && Unpassed(LoadCartState(c, u, seen), seen)
    requires !planned.isLive && planned.startedAt.Some? && planned.endedAt.None? && planned.sessionEndedAt.None?
    requires var left := SecondsLeft(ExpiryFromEnd(planned.startedAt.value), seen);
             left > 0 && first.now < seen + 1000 * left
    requires first.row.isLive && later.row.isLive
    requires forall k :: 0 <= k < |ps| ==> ps[k].row.isLive && ps[k].now < ExpiryFromEnd(planned.startedAt.value)
    ensures var stamped := LoadCartForUser(c, map[s := planned], u, seen).0;
            var live := LoadCartForUser(stamped, map[s := first.row], u, first.now).0;
            var shown := LoadCartForUser(Passes(live, u, s, ps), map[s := later.row], u, later.now).1;
            && Visible(map[s := later.row], s, later.now)
            && (shown.items == [] <==> later.now >= ExpiryFromEnd(planned.startedAt.value))
  {
    hide LoadCartForUser, LoadCartState, Stamped;
    var end := ExpiryFromEnd(planned.startedAt.value);
    var stamped := LoadCartForUser(c, map[s := planned], u, seen).0;
    var live := LoadCartForUser(stamped, map[s := first.row], u, first.now).0;
    StampedFirst(c, u, s, planned, seen, first);
    StampStays(live, u, s, end, ps);
    StampedLast(Passes(live, u, s, ps), u, s, end, later);
  }

  lemma StampedLast(c: Cache, u: UserId, s: StreamId, stamp: int, later: Pass)
    requires s != "" && Stamped(c, u, s, stamp) && later.row.isLive
    ensures LoadCartForUser(c, map[s := later.row], u, later.now).1.items == [] <==> later.now >= stamp
  {
  }

  /** Setting an ended stream live again, which keeps its recorded end, does the same to the carts read in between. */
  lemma RestartedCartIsLost(c: Cache, u: UserId, s: StreamId, ended: Stream, seen: int)
    requires s != "" && TiedTo(c, u, s, seen) && Unpassed(LoadCartState(c, u, seen), seen)
    requires !ended.isLive && ended.endedAt.Some?
    requires SecondsLeft(ExpiryFromEnd(ended.endedAt.value), seen) > 0
    ensures var live := ended.(isLive := true);
            var later := ExpiryFromEnd(ended.endedAt.value);
            var stamped := LoadCartForUser(c, map[s := ended], u, seen).0;
            Visible(map[s := live], s, later) && LoadCartForUser(stamped, map[s := live], u, later).1 == EMPTY
  {
  }
}
