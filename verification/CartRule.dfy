/**
 The cart cache refines a rule a buyer can state: what I put in is there while the
 stream is live and for 24 hours (less the last second) after it ended. The rule
 machine has no expiry, no stamps, no index, no refresh and no sweep.
 */
module CartRule {
  import opened Base
  import opened Streams
  import opened Shop
  import opened Redis
  import opened Carts

  datatype Plain = Plain(items: seq<CartItem>, stream: StreamId, title: Option<string>)

  type RuleBook = map<UserId, Plain>

  /** The closed form: live, or within 24 hours of the end with a whole second left. */
  predicate Visible(streams: StreamTable, s: StreamId, now: int) {
    s in streams && (streams[s].isLive || now <= ExpiryFromEnd(EffectiveEnd(streams[s])) - 1000)
  }

  /** A stream's carts are seen while it is live, and for a day less a second after the first known of its times. */
  lemma VisibleForADay(streams: StreamTable, s: StreamId, now: int)
    ensures Visible(streams, s, now)
       <==> s in streams && (streams[s].isLive || now - Known(streams[s])[0] <= 86_399_000)
  {
    if s in streams {
      WindowIsADay(streams[s]);
    }
  }

  function See(b: RuleBook, streams: StreamTable, u: UserId, now: int): Option<Plain> {
    if u in b && Visible(streams, b[u].stream, now) then Some(b[u]) else None
  }

  function Keep(b: RuleBook, streams: StreamTable, u: UserId, p: Plain, now: int): RuleBook {
    if Visible(streams, p.stream, now) then b[u := p] else b - {u}
  }

  // ---------- what the cache shows ----------

  function PlainOf(st: CartState): Plain {
    Plain(st.items, st.streamId.GetOr(""), st.streamTitle)
  }

  function ShowState(st: CartState): Option<Plain> {
    if st.items == [] then None else Some(PlainOf(st))
  }

  /** What the stored entry amounts to under the rule. */
  function CacheView(c: Cache, streams: StreamTable, u: UserId, now: int): Option<Plain> {
    var st := LoadCartState(c, u, now);
    if st.items != [] && Visible(streams, PlainOf(st).stream, now) then Some(PlainOf(st)) else None
  }

  // ---------- the invariant ----------

  /** Either live or with a recorded end. */
  predicate OneLife(s: Stream) {
    s.isLive <==> s.endedAt.None?
  }

  /** For each stream id used so far: the end of the window of its planned start, if it was scheduled. */
  type Plans = map<StreamId, Option<int>>

  /** The window a stamp may speak of: that of the row, or, while live, that of the plan. */
  function Window(s: Stream, plan: Option<int>): Option<int> {
    if s.isLive then plan else Some(ExpiryFromEnd(EffectiveEnd(s)))
  }

  /** A stamp is the end of that window; the key outlives all but its last second. */
  ghost predicate StampOk(e: Entry<Raw>, stamp: Option<int>, s: Stream, plan: Option<int>) {
    && (stamp.Some? ==> stamp == Window(s, plan))
    && (e.expiresAt.Some? ==> Window(s, plan).Some? && e.expiresAt.value > Window(s, plan).value - 1000)
  }

  ghost predicate EntryOk(e: Entry<Raw>, streams: StreamTable, used: Plans) {
    && e.value.Stored? && e.value.state.items != [] && Given(e.value.state.streamId)
    && var s := e.value.state.streamId.value;
       s in used && (s in streams ==> StampOk(e, e.value.state.expiresAt, streams[s], used[s]))
  }

  /** Live within the window of its plan, or ended, or still scheduled. */
  predicate StreamOk(s: Stream, plan: Option<int>, now: int) {
    if s.isLive then s.endedAt.None? && (plan.Some? ==> now <= plan.value - 1000)
    else s.endedAt.Some? || plan == Window(s, plan)
  }

  ghost predicate StreamsOk(streams: StreamTable, used: Plans, now: int) {
    forall s :: s in streams ==> s in used && StreamOk(streams[s], used[s], now)
  }

  /** A live entry is well stamped, and its holder is in the stream's index. */
  ghost predicate UserOk(c: Cache, streams: StreamTable, used: Plans, u: UserId, now: int) {
    u in c.entries && Alive(c.entries[u], now) ==>
      && EntryOk(c.entries[u], streams, used)
      && u in c.Members(c.entries[u].value.state.streamId.value)
  }

  ghost predicate CacheOk(c: Cache, streams: StreamTable, used: Plans, now: int) {
    StreamsOk(streams, used, now) && forall u :: UserOk(c, streams, used, u, now)
  }

  ghost predicate Agrees(c: Cache, b: RuleBook, streams: StreamTable, used: Plans, now: int) {
    && (forall u :: CacheView(c, streams, u, now) == See(b, streams, u, now))
    && (forall u :: u in b ==> b[u].stream in used)
  }

  /** Only this user's entry and index memberships may differ. */
  ghost predicate OnlyUser(c: Cache, c': Cache, u: UserId) {
    && (forall v :: v != u ==> (v in c.entries <==> v in c'.entries))
    && (forall v :: v != u && v in c.entries ==> c'.entries[v] == c.entries[v])
    && (forall s, v :: v != u ==> (v in c.Members(s) <==> v in c'.Members(s)))
  }

  lemma OthersUnmoved(c: Cache, c': Cache, streams: StreamTable, used: Plans, u: UserId, now: int)
    requires OnlyUser(c, c', u)
    ensures forall v :: v != u ==> CacheView(c', streams, v, now) == CacheView(c, streams, v, now)
    ensures forall v :: v != u && UserOk(c, streams, used, v, now) ==> UserOk(c', streams, used, v, now)
  {
  }

  lemma OnlyUserTrans(a: Cache, b: Cache, c: Cache, u: UserId)
    requires OnlyUser(a, b, u) && OnlyUser(b, c, u)
    ensures OnlyUser(a, c, u)
  {
  }

  // ---------- single operations ----------

  lemma ClearFacts(c: Cache, streams: StreamTable, used: Plans, u: UserId, s: Option<StreamId>, now: int)
    ensures var c' := ClearCart(c, u, s);
            OnlyUser(c, c', u) && UserOk(c', streams, used, u, now) && CacheView(c', streams, u, now) == None
  {
  }

  lemma SaveFacts(c: Cache, streams: StreamTable, used: Plans, u: UserId, st: CartState, ttl: Option<nat>,
                  now: int)
    requires st.items != [] && Given(st.streamId) && st.streamId.value in used && st.streamId.value in streams
    requires var end := Window(streams[st.streamId.value], used[st.streamId.value]);
             && (st.expiresAt.Some? ==> st.expiresAt == end)
             && (ttl.Some? ==> end.Some? && ttl.value > 0 && now + 1000 * ttl.value > end.value - 1000)
    ensures var c' := SaveCartState(c, u, st, ttl, now);
            && OnlyUser(c, c', u) && UserOk(c', streams, used, u, now)
            && Index(c', u, st.streamId) == c'
            && LoadCartState(c', u, now) == st.(updatedAt := Some(now))
  {
  }

  lemma SecondsLeftBounds(end: int, now: int)
    ensures var k := SecondsLeft(end, now);
            && (k <= 0 <==> now > end - 1000)
            && now + 1000 * Max(1, k) > end - 1000
            && (k >= 1 ==> now + 1000 * k > end - 1000)
  {
  }

  /** A cart state whose stamp, if any, is the end of its stream's window. */
  ghost predicate StateOk(st: CartState, streams: StreamTable, used: Plans) {
    && Given(st.streamId) && st.streamId.value in used
    && (st.streamId.value in streams && st.expiresAt.Some? ==>
          st.expiresAt == Window(streams[st.streamId.value], used[st.streamId.value]))
  }

  /** Enforcement decides exactly the rule, whatever stamp is on the cart. */
  lemma EnforceFacts(c: Cache, streams: StreamTable, used: Plans, u: UserId, st: CartState, now: int)
    requires StreamsOk(streams, used, now) && st.items != [] && StateOk(st, streams, used)
    ensures var (c', r) := EnforceCartExpiry(c, streams, u, st, now);
            && OnlyUser(c, c', u) && UserOk(c', streams, used, u, now)
            && ShowState(r) == (if Visible(streams, st.streamId.value, now) then Some(PlainOf(st)) else None)
            && CacheView(c', streams, u, now) == ShowState(r)
            && (r.items != [] ==> StateOk(r, streams, used) && r.streamId.value in streams
                                  && (r.expiresAt.Some? ==> SecondsLeft(r.expiresAt.value, now) >= 1))
  {
    var sid := st.streamId.value;
    ClearFacts(c, streams, used, u, st.streamId, now);
    if sid in streams {
      var end := ExpiryFromEnd(EffectiveEnd(streams[sid]));
      SecondsLeftBounds(end, now);
      var ttl := SecondsLeft(end, now);
      if streams[sid].isLive {
        SaveFacts(c, streams, used, u, st.(updatedAt := Some(now)), None, now);
      } else if ttl > 0 {
        SaveFacts(c, streams, used, u, st.(expiresAt := Some(end), updatedAt := Some(now)), Some(ttl), now);
      }
    }
  }

  lemma LoadFacts(c: Cache, streams: StreamTable, used: Plans, u: UserId, now: int)
    requires StreamsOk(streams, used, now) && UserOk(c, streams, used, u, now)
    ensures var (c', r) := LoadCartForUser(c, streams, u, now);
            && OnlyUser(c, c', u) && UserOk(c', streams, used, u, now)
            && ShowState(r) == CacheView(c, streams, u, now) == CacheView(c', streams, u, now)
            && (r.items != [] ==> StateOk(r, streams, used) && r.streamId.value in streams
                                  && (r.expiresAt.Some? ==> SecondsLeft(r.expiresAt.value, now) >= 1))
  {
    var st := LoadCartState(c, u, now);
    if st.items != [] {
      EnforceFacts(c, streams, used, u, st, now);
    }
  }

  lemma GetCartFacts(c: Cache, streams: StreamTable, used: Plans, u: UserId, now: int)
    requires StreamsOk(streams, used, now) && UserOk(c, streams, used, u, now)
    ensures GetCart(c, streams, u, now) == LoadCartForUser(c, streams, u, now)
  {
  }

  lemma PersistFacts(c: Cache, streams: StreamTable, used: Plans, u: UserId, st: CartState, now: int)
    requires StreamsOk(streams, used, now) && st.items != [] && StateOk(st, streams, used)
    ensures var c' := PersistCartState(c, streams, u, st, now);
            && OnlyUser(c, c', u) && UserOk(c', streams, used, u, now)
            && CacheView(c', streams, u, now)
               == (if Visible(streams, st.streamId.value, now) then Some(PlainOf(st)) else None)
  {
    EnforceFacts(c, streams, used, u, st, now);
    var (c1, r) := EnforceCartExpiry(c, streams, u, st, now);
    if r.items != [] {
      var ttl := if r.expiresAt.Some? then Some(Max(1, SecondsLeft(r.expiresAt.value, now))) else None;
      if r.expiresAt.Some? {
        SecondsLeftBounds(r.expiresAt.value, now);
      }
      SaveFacts(c1, streams, used, u, r, ttl, now);
    }
  }

  // ---------- the buyer's operations under the rule ----------

  function RuleAdd(b: RuleBook, streams: StreamTable, products: Products, u: UserId, dto: AddDto, now: int):
    (RuleBook, Result<Option<Plain>, CartError>)
  {
    var failure := CheckAvailable(products, dto.item);
    if failure.Some? then (b, Err(failure.value))
    else
      var cur := See(b, streams, u, now);
      if cur.None? && !Given(dto.streamId) then (b, Err(StreamIdRequired))
      else if cur.Some? && Given(dto.streamId) && dto.streamId.value != cur.value.stream then (b, Err(OtherStream))
      else
        var p := if cur.Some?
                 then Plain(Upsert(cur.value.items, dto.item), cur.value.stream,
                             PickTitle(cur.value.title, dto.streamTitle))
                 else Plain(Upsert([], dto.item), dto.streamId.value, PickTitle(None, dto.streamTitle));
        var b' := Keep(b, streams, u, p, now);
        (b', Ok(See(b', streams, u, now)))
  }

  function RuleUpdate(b: RuleBook, streams: StreamTable, u: UserId, product: ProductId, quantity: nat,
                      variantId: Option<string>, now: int): (RuleBook, Result<Option<Plain>, CartError>)
  {
    var cur := See(b, streams, u, now);
    var items := if cur.Some? then cur.value.items else [];
    var k := FindLine(items, product, VariantKey(variantId));
    if k == |items| then (b, Err(ItemNotFound))
    else
      var b' := b[u := cur.value.(items := items[k := items[k].(quantity := quantity)])];
      (b', Ok(See(b', streams, u, now)))
  }

  function RuleRemove(b: RuleBook, streams: StreamTable, u: UserId, product: ProductId, variantId: Option<string>,
                      now: int):
    (RuleBook, Result<Option<Plain>, CartError>)
  {
    var cur := See(b, streams, u, now);
    var next := if cur.Some? then WithoutLine(cur.value.items, product, VariantKey(variantId)) else [];
    var b' := if next != [] then b[u := cur.value.(items := next)] else b - {u};
    (b', Ok(See(b', streams, u, now)))
  }

  // ---------- both machines, one step ----------

  datatype Env = Env(streams: StreamTable, used: Plans, now: int)

  datatype Event =
    | Tick(ms: nat)
    | Schedules(stream: StreamId, row: Stream)
    | Starts(stream: StreamId)
    | GoesLive(stream: StreamId, row: Stream)
    | Ends(stream: StreamId)
    | Stops(stream: StreamId)
    | Deleted(stream: StreamId)
    | EndHook(stream: StreamId)
    | Swept(users: seq<UserId>)
    | Read(user: UserId)
    | Shows(user: UserId)
    | Adds(user: UserId, products: Products, dto: AddDto)
    | Updates(user: UserId, product: ProductId, quantity: nat, variantId: Option<string>)
    | Removes(user: UserId, product: ProductId, variantId: Option<string>)
    | ChecksOut(user: UserId)

  datatype Response = Silent | Cart(shown: Option<Plain>) | Refused(error: CartError)

  function Answer(r: Result<Option<Plain>, CartError>): Response {
    match r case Ok(p) => Cart(p) case Err(e) => Refused(e)
  }

  function AnswerState(r: Result<CartState, CartError>): Response {
    match r case Ok(st) => Cart(ShowState(st)) case Err(e) => Refused(e)
  }

  function EnvStep(env: Env, e: Event): Env {
    match e
    case Tick(ms) => env.(now := env.now + ms)
    case Schedules(s, row) =>
      env.(streams := env.streams[s := row], used := env.used[s := Some(ExpiryFromEnd(EffectiveEnd(row)))])
    case Starts(s) =>
      if s in env.streams
      then env.(streams := env.streams[s := env.streams[s].(isLive := true, startedAt := Some(env.now))]) else env
    case GoesLive(s, row) => env.(streams := env.streams[s := row], used := env.used[s := None])
    case Stops(s) =>
      if s in env.streams
      then env.(streams := env.streams[s := env.streams[s].(isLive := false, endedAt := Some(env.now))]) else env
    case Ends(s) =>
      if s in env.streams
      then env.(streams := env.streams[s := env.streams[s].(isLive := false, endedAt := Some(env.now))]) else env
    case Deleted(s) => env.(streams := env.streams - {s})
    case Adds(_, _, dto) => 
      if Given(dto.streamId) && dto.streamId.value !in env.used
      then env.(used := env.used[dto.streamId.value := None]) else env
    case _ => env
  }

  /**
   Stream ids are never reused. A stream goes live at most once, at once or from a
   schedule, and ends at most once. A scheduled one is started, and ends with its hook
   (`Stops`), within the window of its planned start; one that was not scheduled may have
   its hook later (`Ends`, then `EndHook`), or never.
   */
  ghost predicate Allowed(env: Env, e: Event) {
    match e
    case Tick(ms) =>
      forall s :: s in env.streams && s in env.used && env.streams[s].isLive && env.used[s].Some? ==>
        env.now + ms <= env.used[s].value - 1000
    case Schedules(s, row) =>
      s !in env.used && !row.isLive && row.startedAt.Some? && row.endedAt.None? && row.sessionEndedAt.None?
    case Starts(s) =>
      && s in env.streams && !env.streams[s].isLive && env.streams[s].endedAt.None?
      && s in env.used && env.used[s].Some? && env.now <= env.used[s].value - 1000
    case GoesLive(s, row) => s !in env.used && row.isLive && row.endedAt.None?
    case Ends(s) => s in env.streams && env.streams[s].isLive && s in env.used && env.used[s].None?
    case Stops(s) => s in env.streams && env.streams[s].isLive
    case EndHook(s) => s in env.streams && !env.streams[s].isLive && env.streams[s].endedAt.Some?
    case _ => true
  }

  function CacheStep(c: Cache, env: Env, e: Event): (Cache, Response) {
    var (streams, now) := (env.streams, env.now);
    match e
    case EndHook(s) =>
      if s in streams then (OnStreamEnded(c, s, EffectiveEnd(streams[s]), now), Silent) else (c, Silent)
    case Stops(s) => if s in streams then (OnStreamEnded(c, s, now, now), Silent) else (c, Silent)
    case Swept(users) => (Sweep(c, streams, users, now), Silent)
    case Read(u) => var (c', st) := LoadCartForUser(c, streams, u, now); (c', Cart(ShowState(st)))
    case Shows(u) => var (c', st) := GetCart(c, streams, u, now); (c', Cart(ShowState(st)))
    case Adds(u, products, dto) =>
      var (c', r) := AddCartItem(c, streams, products, u, dto, now); (c', AnswerState(r))
    case Updates(u, p, q, v) => var (c', r) := UpdateCartItem(c, streams, u, p, q, v, now); (c', AnswerState(r))
    case Removes(u, p, v) => var (c', r) := RemoveCartItem(c, streams, u, p, v, now); (c', AnswerState(r))
    case ChecksOut(u) =>
      var (c', st) := GetCart(c, streams, u, now);
      if st.items == [] then (c', Cart(None)) else (ClearCart(c', u, st.streamId), Cart(ShowState(st)))
    case _ => (c, Silent)
  }

  /** Refreshes, sweeps and hooks do nothing here. */
  function RuleStep(b: RuleBook, env: Env, e: Event): (RuleBook, Response) {
    var (streams, now) := (env.streams, env.now);
    match e
    case Read(u) => (b, Cart(See(b, streams, u, now)))
    case Shows(u) => (b, Cart(See(b, streams, u, now)))
    case Adds(u, products, dto) => var (b', r) := RuleAdd(b, streams, products, u, dto, now); (b', Answer(r))
    case Updates(u, p, q, v) => var (b', r) := RuleUpdate(b, streams, u, p, q, v, now); (b', Answer(r))
    case Removes(u, p, v) => var (b', r) := RuleRemove(b, streams, u, p, v, now); (b', Answer(r))
    case ChecksOut(u) => (b - {u}, Cart(See(b, streams, u, now)))
    case _ => (b, Silent)
  }

  ghost predicate Related(c: Cache, b: RuleBook, env: Env) {
    CacheOk(c, env.streams, env.used, env.now) && Agrees(c, b, env.streams, env.used, env.now)
  }

  // ---------- the environment moves ----------

  /** The steps that change only streams and clock. */
  predicate Moves(e: Event) {
    e.Tick? || e.Schedules? || e.Starts? || e.GoesLive? || e.Ends? || e.Deleted? || e.Adds?
  }

  lemma TickUser(c: Cache, env: Env, e: Event, u: UserId)
    requires Allowed(env, e) && Moves(e)
    requires StreamsOk(env.streams, env.used, env.now) && UserOk(c, env.streams, env.used, u, env.now)
    ensures var env' := EnvStep(env, e);
            && UserOk(c, env'.streams, env'.used, u, env'.now)
            && CacheView(c, env'.streams, u, env'.now)
               == (var v := CacheView(c, env.streams, u, env.now);
                   if v.Some? && Visible(env'.streams, v.value.stream, env'.now) then v else None)
  {
  }

  lemma SeeShrinks(b: RuleBook, env: Env, e: Event, u: UserId)
    requires Allowed(env, e) && StreamsOk(env.streams, env.used, env.now)
    requires u in b ==> b[u].stream in env.used
    ensures var env' := EnvStep(env, e);
            See(b, env'.streams, u, env'.now)
            == (var v := See(b, env.streams, u, env.now);
                if v.Some? && Visible(env'.streams, v.value.stream, env'.now) then v else None)
  {
  }

  lemma EnvKeepsRelated(c: Cache, b: RuleBook, env: Env, e: Event)
    requires Related(c, b, env) && Allowed(env, e) && Moves(e)
    ensures Related(c, b, EnvStep(env, e))
  {
    forall u
      ensures UserOk(c, EnvStep(env, e).streams, EnvStep(env, e).used, u, EnvStep(env, e).now)
      ensures CacheView(c, EnvStep(env, e).streams, u, EnvStep(env, e).now)
           == See(b, EnvStep(env, e).streams, u, EnvStep(env, e).now)
    {
      TickUser(c, env, e, u);
      SeeShrinks(b, env, e, u);
    }
  }

  // ---------- the cache moves ----------

  /** A call that only touches one user's cart keeps the relation if it does so for that user. */
  lemma OneUserRelated(c: Cache, c': Cache, b: RuleBook, b': RuleBook, env: Env, u: UserId)
    requires Related(c, b, env) && OnlyUser(c, c', u)
    requires UserOk(c', env.streams, env.used, u, env.now)
    requires b' - {u} == b - {u} && (u in b' ==> b'[u].stream in env.used)
    requires CacheView(c', env.streams, u, env.now) == See(b', env.streams, u, env.now)
    ensures Related(c', b', env)
  {
    OthersUnmoved(c, c', env.streams, env.used, u, env.now);
    forall v
      ensures UserOk(c', env.streams, env.used, v, env.now)
      ensures CacheView(c', env.streams, v, env.now) == See(b', env.streams, v, env.now)
      ensures v in b' ==> b'[v].stream in env.used
    {
      if v != u {
        assert v in b' <==> v in b' - {u};
        assert v in b <==> v in b - {u};
        assert v in b ==> b'[v] == (b' - {u})[v] == (b - {u})[v] == b[v];
      }
    }
  }

  lemma LoadRelated(c: Cache, b: RuleBook, env: Env, u: UserId)
    requires Related(c, b, env)
    ensures var (c', st) := LoadCartForUser(c, env.streams, u, env.now);
            Related(c', b, env) && ShowState(st) == See(b, env.streams, u, env.now)
  {
    LoadFacts(c, env.streams, env.used, u, env.now);
    OneUserRelated(c, LoadCartForUser(c, env.streams, u, env.now).0, b, b, env, u);
  }

  lemma ShowRelated(c: Cache, b: RuleBook, env: Env, u: UserId)
    requires Related(c, b, env)
    ensures var (c', st) := GetCart(c, env.streams, u, env.now);
            Related(c', b, env) && ShowState(st) == See(b, env.streams, u, env.now)
  {
    GetCartFacts(c, env.streams, env.used, u, env.now);
    LoadRelated(c, b, env, u);
  }

  lemma {:induction false} SweepRelated(c: Cache, b: RuleBook, env: Env, users: seq<UserId>)
    requires Related(c, b, env)
    ensures Related(Sweep(c, env.streams, users, env.now), b, env)
  {
    if users != [] {
      SweepRelated(c, b, env, users[..|users| - 1]);
      LoadRelated(Sweep(c, env.streams, users[..|users| - 1], env.now), b, env, users[|users| - 1]);
    }
  }

  /** Replacing the cart of a user by a new state, then showing it. */
  lemma PersistRelated(c: Cache, b: RuleBook, env: Env, u: UserId, st: CartState)
    requires Related(c, b, env) && st.items != [] && StateOk(st, env.streams, env.used)
    ensures var c1 := PersistCartState(c, env.streams, u, st, env.now);
            var (c2, shown) := GetCart(c1, env.streams, u, env.now);
            var b' := Keep(b, env.streams, u, PlainOf(st), env.now);
            Related(c2, b', env) && ShowState(shown) == See(b', env.streams, u, env.now)
  {
    var b' := Keep(b, env.streams, u, PlainOf(st), env.now);
    PersistFacts(c, env.streams, env.used, u, st, env.now);
    var c1 := PersistCartState(c, env.streams, u, st, env.now);
    OneUserRelated(c, c1, b, b', env, u);
    ShowRelated(c1, b', env, u);
  }

  lemma HookUser(c: Cache, env: Env, s: StreamId, u: UserId)
    requires StreamsOk(env.streams, env.used, env.now) && s in env.streams && !env.streams[s].isLive
    requires UserOk(c, env.streams, env.used, u, env.now)
    ensures var c' := OnStreamEnded(c, s, EffectiveEnd(env.streams[s]), env.now);
            UserOk(c', env.streams, env.used, u, env.now)
            && CacheView(c', env.streams, u, env.now) == CacheView(c, env.streams, u, env.now)
  {
  }

  lemma HookRelated(c: Cache, b: RuleBook, env: Env, s: StreamId)
    requires Related(c, b, env) && s in env.streams && !env.streams[s].isLive
    ensures Related(OnStreamEnded(c, s, EffectiveEnd(env.streams[s]), env.now), b, env)
  {
    forall u
      ensures UserOk(OnStreamEnded(c, s, EffectiveEnd(env.streams[s]), env.now), env.streams, env.used, u, env.now)
      ensures CacheView(OnStreamEnded(c, s, EffectiveEnd(env.streams[s]), env.now), env.streams, u, env.now)
           == CacheView(c, env.streams, u, env.now)
    {
      HookUser(c, env, s, u);
    }
  }

  /** A stop ends the stream and restamps every cart tied to it. */
  lemma StopsUser(c: Cache, env: Env, s: StreamId, u: UserId)
    requires StreamsOk(env.streams, env.used, env.now) && s in env.streams && env.streams[s].isLive
    requires UserOk(c, env.streams, env.used, u, env.now)
    ensures var c' := OnStreamEnded(c, s, env.now, env.now);
            var env' := EnvStep(env, Stops(s));
            UserOk(c', env'.streams, env'.used, u, env'.now)
            && CacheView(c', env'.streams, u, env'.now) == CacheView(c, env.streams, u, env.now)
  {
    SecondsLeftBounds(ExpiryFromEnd(env.now), env.now);
  }

  lemma StopsRelated(c: Cache, b: RuleBook, env: Env, s: StreamId)
    requires Related(c, b, env) && s in env.streams && env.streams[s].isLive
    ensures Related(OnStreamEnded(c, s, env.now, env.now), b, EnvStep(env, Stops(s)))
  {
    var c', env' := OnStreamEnded(c, s, env.now, env.now), EnvStep(env, Stops(s));
    forall u
      ensures UserOk(c', env'.streams, env'.used, u, env'.now)
      ensures CacheView(c', env'.streams, u, env'.now) == See(b, env'.streams, u, env'.now)
    {
      StopsUser(c, env, s, u);
    }
  }

  lemma UpsertNonEmpty(items: seq<CartItem>, i: CartItem)
    ensures Upsert(items, i) != []
  {
  }

  lemma AddRelated(c: Cache, b: RuleBook, env: Env, u: UserId, products: Products, dto: AddDto)
    requires Related(c, b, env) && (Given(dto.streamId) ==> dto.streamId.value in env.used)
    ensures var (c', r) := AddCartItem(c, env.streams, products, u, dto, env.now);
            var (b', q) := RuleAdd(b, env.streams, products, u, dto, env.now);
            Related(c', b', env) && AnswerState(r) == Answer(q)
  {
    if CheckAvailable(products, dto.item).None? {
      LoadRelated(c, b, env, u);
      LoadFacts(c, env.streams, env.used, u, env.now);
      var (c1, st) := LoadCartForUser(c, env.streams, u, env.now);
      UpsertNonEmpty(st.items, dto.item);
      var next := CartState(Upsert(st.items, dto.item), if st.streamId.Some? then st.streamId else dto.streamId,
                            PickTitle(st.streamTitle, dto.streamTitle), None, None);
      if (st.items != [] || Given(dto.streamId)) &&
         !(Given(st.streamId) && Given(dto.streamId) && dto.streamId != st.streamId) {
        LoadEmpty(c, env.streams, u, env.now);
        PersistRelated(c1, b, env, u, next);
      }
    }
  }

  lemma LoadEmpty(c: Cache, streams: StreamTable, u: UserId, now: int)
    ensures var st := LoadCartForUser(c, streams, u, now).1; st.items == [] ==> st == EMPTY
  {
  }

  lemma UpdateRelated(c: Cache, b: RuleBook, env: Env, u: UserId, product: ProductId, quantity: nat,
                      variantId: Option<string>)
    requires Related(c, b, env)
    ensures var (c', r) := UpdateCartItem(c, env.streams, u, product, quantity, variantId, env.now);
            var (b', q) := RuleUpdate(b, env.streams, u, product, quantity, variantId, env.now);
            Related(c', b', env) && AnswerState(r) == Answer(q)
  {
    LoadRelated(c, b, env, u);
    LoadFacts(c, env.streams, env.used, u, env.now);
    var (c1, st) := LoadCartForUser(c, env.streams, u, env.now);
    var k := FindLine(st.items, product, VariantKey(variantId));
    if k < |st.items| {
      var next := CartState(st.items[k := st.items[k].(quantity := quantity)],
                            st.streamId, st.streamTitle, st.expiresAt, None);
      PersistRelated(c1, b, env, u, next);
    }
  }

  lemma RemoveRelated(c: Cache, b: RuleBook, env: Env, u: UserId, product: ProductId, variantId: Option<string>)
    requires Related(c, b, env)
    ensures var (c', r) := RemoveCartItem(c, env.streams, u, product, variantId, env.now);
            var (b', q) := RuleRemove(b, env.streams, u, product, variantId, env.now);
            Related(c', b', env) && AnswerState(r) == Answer(q)
  {
    LoadRelated(c, b, env, u);
    LoadFacts(c, env.streams, env.used, u, env.now);
    var (c1, st) := LoadCartForUser(c, env.streams, u, env.now);
    var next := WithoutLine(st.items, product, VariantKey(variantId));
    if next != [] {
      PersistRelated(c1, b, env, u, CartState(next, st.streamId, st.streamTitle, st.expiresAt, None));
    } else {
      ClearFacts(c1, env.streams, env.used, u, None, env.now);
      OneUserRelated(c1, ClearCart(c1, u, None), b, b - {u}, env, u);
      ShowRelated(ClearCart(c1, u, None), b - {u}, env, u);
    }
  }

  lemma CheckoutRelated(c: Cache, b: RuleBook, env: Env, u: UserId)
    requires Related(c, b, env)
    ensures var (c', r) := CacheStep(c, env, ChecksOut(u));
            var (b', q) := RuleStep(b, env, ChecksOut(u));
            Related(c', b', env) && r == q
  {
    ShowRelated(c, b, env, u);
    var (c1, st) := GetCart(c, env.streams, u, env.now);
    if st.items != [] {
      ClearFacts(c1, env.streams, env.used, u, st.streamId, env.now);
      OneUserRelated(c1, ClearCart(c1, u, st.streamId), b, b - {u}, env, u);
    } else {
      OneUserRelated(c1, c1, b, b - {u}, env, u);
    }
  }

  // ---------- refinement ----------

  lemma StepRefines(c: Cache, b: RuleBook, env: Env, e: Event)
    requires Related(c, b, env) && Allowed(env, e)
    ensures var env' := EnvStep(env, e);
            var (c', r) := CacheStep(c, env, e);
            var (b', q) := RuleStep(b, env, e);
            Related(c', b', env') && r == q
  {
    match e
    case Tick(_) => EnvKeepsRelated(c, b, env, e);
    case Schedules(_, _) => EnvKeepsRelated(c, b, env, e);
    case Starts(_) => EnvKeepsRelated(c, b, env, e);
    case Stops(s) => StopsRelated(c, b, env, s);
    case GoesLive(_, _) => EnvKeepsRelated(c, b, env, e);
    case Ends(_) => EnvKeepsRelated(c, b, env, e);
    case Deleted(_) => EnvKeepsRelated(c, b, env, e);
    case EndHook(s) => HookRelated(c, b, env, s);
    case Swept(users) => SweepRelated(c, b, env, users);
    case Read(u) => LoadRelated(c, b, env, u);
    case Shows(u) => ShowRelated(c, b, env, u);
    case Adds(u, products, dto) =>
      EnvKeepsRelated(c, b, env, e);
      AddRelated(c, b, EnvStep(env, e), u, products, dto);
    case Updates(u, p, q, v) => UpdateRelated(c, b, env, u, p, q, v);
    case Removes(u, p, v) => RemoveRelated(c, b, env, u, p, v);
    case ChecksOut(u) => CheckoutRelated(c, b, env, u);
  }

  function EnvRun(env: Env, es: seq<Event>): Env {
    if es == [] then env else EnvStep(EnvRun(env, es[..|es| - 1]), es[|es| - 1])
  }

  ghost predicate AllowedRun(env: Env, es: seq<Event>) {
    es == [] || (AllowedRun(env, es[..|es| - 1]) && Allowed(EnvRun(env, es[..|es| - 1]), es[|es| - 1]))
  }

  function CacheRun(c: Cache, env: Env, es: seq<Event>): (Cache, seq<Response>) {
    if es == [] then (c, [])
    else
      var (c1, rs) := CacheRun(c, env, es[..|es| - 1]);
      var (c2, r) := CacheStep(c1, EnvRun(env, es[..|es| - 1]), es[|es| - 1]);
      (c2, rs + [r])
  }

  function RuleRun(b: RuleBook, env: Env, es: seq<Event>): (RuleBook, seq<Response>) {
    if es == [] then (b, [])
    else
      var (b1, rs) := RuleRun(b, env, es[..|es| - 1]);
      var (b2, r) := RuleStep(b1, EnvRun(env, es[..|es| - 1]), es[|es| - 1]);
      (b2, rs + [r])
  }

  /**
   Over every run the cache answers every call exactly as the rule does, whichever
   refreshes, hooks, sweeps and expiries happened in between.
   */
  lemma {:induction false} CacheRefinesRule(c: Cache, b: RuleBook, env: Env, es: seq<Event>)
    requires Related(c, b, env) && AllowedRun(env, es)
    ensures CacheRun(c, env, es).1 == RuleRun(b, env, es).1
    ensures Related(CacheRun(c, env, es).0, RuleRun(b, env, es).0, EnvRun(env, es))
  {
    if es != [] {
      var front, e := es[..|es| - 1], es[|es| - 1];
      CacheRefinesRule(c, b, env, front);
      hide Related, CacheStep, RuleStep, Allowed, EnvStep;
      StepRefines(CacheRun(c, env, front).0, RuleRun(b, env, front).0, EnvRun(env, front), e);
    }
  }

  /** The empty cache starts the run. */
  lemma EmptyRelated(env: Env)
    requires StreamsOk(env.streams, env.used, env.now)
    ensures Related(Store(map[], map[]), map[], env)
  {
  }

  /** From an empty cache, after any run, a read shows a cart exactly when the rule book has one in its window. */
  lemma ReadShowsRule(env: Env, es: seq<Event>, u: UserId)
    requires StreamsOk(env.streams, env.used, env.now) && AllowedRun(env, es)
    ensures var c := CacheRun(Store(map[], map[]), env, es).0;
            var b := RuleRun(map[], env, es).0;
            var env' := EnvRun(env, es);
            var shown := LoadCartForUser(c, env'.streams, u, env'.now).1;
            && (shown.items != [] <==> u in b && Visible(env'.streams, b[u].stream, env'.now))
            && (shown.items != [] ==> PlainOf(shown) == b[u])
  {
    EmptyRelated(env);
    CacheRefinesRule(Store(map[], map[]), map[], env, es);
    LoadRelated(CacheRun(Store(map[], map[]), env, es).0, RuleRun(map[], env, es).0, EnvRun(env, es), u);
  }

  // ---------- what a change does to the cart seen ----------

  function Seen(c: Cache, env: Env, u: UserId): CartState {
    LoadCartForUser(c, env.streams, u, env.now).1
  }

  /** In any reachable state removing takes the lines for this product and variant from the cart seen, and no other. */
  lemma RemoveTakes(c: Cache, b: RuleBook, env: Env, u: UserId, product: ProductId, variantId: Option<string>)
    requires Related(c, b, env)
    ensures var before := Seen(c, env, u);
            var (c', r) := RemoveCartItem(c, env.streams, u, product, variantId, env.now);
            var after := Seen(c', env, u);
            && Taken(before.items, after.items, product, variantId)
            && r.Ok? && r.value.items == after.items
            && (after.items != [] ==> (after.streamId, after.streamTitle) == (before.streamId, before.streamTitle))
  {
    RemoveRelated(c, b, env, u, product, variantId);
    var (c', r) := RemoveCartItem(c, env.streams, u, product, variantId, env.now);
    var b' := RuleRemove(b, env.streams, u, product, variantId, env.now).0;
    SeenIsRule(c, b, env, u);
    SeenIsRule(c', b', env, u);
    WithoutLineTakes(Seen(c, env, u).items, product, variantId);
  }

  lemma SeenIsRule(c: Cache, b: RuleBook, env: Env, u: UserId)
    requires Related(c, b, env)
    ensures ShowState(Seen(c, env, u)) == See(b, env.streams, u, env.now)
    ensures Seen(c, env, u).items != [] ==> Given(Seen(c, env, u).streamId)
  {
    LoadRelated(c, b, env, u);
    LoadFacts(c, env.streams, env.used, u, env.now);
  }

  /** `after` is `before` with another quantity on its first line for this product and variant. */
  ghost predicate Requantified(before: seq<CartItem>, after: seq<CartItem>, product: ProductId, quantity: nat,
                               variantId: Option<string>)
  {
    exists k :: 0 <= k < |before| && IsFor(before[k], product, variantId)
                && (forall j :: 0 <= j < k ==> !IsFor(before[j], product, variantId))
                && after == before[k := before[k].(quantity := quantity)]
  }

  lemma RuleUpdateSets(b: RuleBook, streams: StreamTable, u: UserId, product: ProductId, quantity: nat,
                       variantId: Option<string>, now: int)
    ensures var before := See(b, streams, u, now);
            var items := if before.Some? then before.value.items else [];
            var (b', r) := RuleUpdate(b, streams, u, product, quantity, variantId, now);
            && (r.Ok? <==> exists l :: l in items && IsFor(l, product, variantId))
            && (r.Ok? ==> See(b', streams, u, now).Some?
                          && Requantified(items, See(b', streams, u, now).value.items, product, quantity, variantId))
            && (r.Err? ==> b' == b)
  {
    var before := See(b, streams, u, now);
    var items := if before.Some? then before.value.items else [];
    var k := FindLine(items, product, VariantKey(variantId));
    if k < |items| {
      assert items[k] in items && IsFor(items[k], product, variantId);
    }
  }

  /** Updating finds a line exactly when there is one, and changes the quantity of the first. */
  lemma UpdateSetsQuantity(c: Cache, b: RuleBook, env: Env, u: UserId, product: ProductId, quantity: nat,
                           variantId: Option<string>)
    requires Related(c, b, env)
    ensures var before := Seen(c, env, u).items;
            var (c', r) := UpdateCartItem(c, env.streams, u, product, quantity, variantId, env.now);
            var after := Seen(c', env, u).items;
            && (r.Ok? <==> exists l :: l in before && IsFor(l, product, variantId))
            && (r.Ok? ==> Requantified(before, after, product, quantity, variantId))
            && (r.Err? ==> after == before)
  {
    UpdateRelated(c, b, env, u, product, quantity, variantId);
    hide Related, Seen, See, UpdateCartItem, RuleUpdate, Requantified, IsFor;
    var (c', r) := UpdateCartItem(c, env.streams, u, product, quantity, variantId, env.now);
    var b' := RuleUpdate(b, env.streams, u, product, quantity, variantId, env.now).0;
    SeenIsRule(c, b, env, u);
    SeenIsRule(c', b', env, u);
    RuleUpdateSets(b, env.streams, u, product, quantity, variantId, env.now);
  }

  /**
   Adding is accepted exactly for things in stock, from the cart's own stream or, for an
   empty cart, from any given one; then the item is on its line of the cart seen, unless
   the stream of a first item is over.
   */
  lemma AddPuts(c: Cache, b: RuleBook, env: Env, u: UserId, products: Products, dto: AddDto)
    requires Related(c, b, env) && (Given(dto.streamId) ==> dto.streamId.value in env.used)
    ensures var before := Seen(c, env, u);
            var (c', r) := AddCartItem(c, env.streams, products, u, dto, env.now);
            var after := Seen(c', env, u);
            && (r.Ok? <==>
                  && InStock(products, dto.item.product, dto.item.variantId, dto.item.quantity)
                  && (if before.items == [] then Given(dto.streamId)
                      else !Given(dto.streamId) || dto.streamId == before.streamId))
            && (r.Ok? && after.items != [] ==>
                  && Put(before.items, after.items, dto.item)
                  && after.streamId == if before.items == [] then dto.streamId else before.streamId)
            && (r.Ok? && after.items == [] ==>
                  before.items == [] && !Visible(env.streams, dto.streamId.value, env.now))
            && (r.Err? ==> after.items == before.items)
  {
    AddRelated(c, b, env, u, products, dto);
    CheckAvailableExactly(products, dto.item);
    var (c', r) := AddCartItem(c, env.streams, products, u, dto, env.now);
    var b' := RuleAdd(b, env.streams, products, u, dto, env.now).0;
    SeenIsRule(c, b, env, u);
    SeenIsRule(c', b', env, u);
    LoadEmpty(c, env.streams, u, env.now);
    UpsertPuts(Seen(c, env, u).items, dto.item);
  }

  ghost predicate OneLines(b: RuleBook) {
    forall u :: u in b ==> OneLineEach(b[u].items)
  }

  lemma SetQuantityKeepsOneLine(items: seq<CartItem>, k: nat, quantity: nat)
    requires OneLineEach(items) && k < |items|
    ensures OneLineEach(items[k := items[k].(quantity := quantity)])
  {
  }

  lemma RemovingKeepsOneLine(items: seq<CartItem>, product: ProductId, variantId: Option<string>)
    requires OneLineEach(items)
    ensures OneLineEach(WithoutLine(items, product, VariantKey(variantId)))
  {
    hide OneLineEach, Taken, WithoutLine;
    WithoutLineTakes(items, product, variantId);
    TakenKeepsOneLine(items, WithoutLine(items, product, VariantKey(variantId)), product, variantId);
  }

  lemma NothingIsOneLine()
    ensures OneLineEach([])
  {
  }

  lemma OneLinesStep(b: RuleBook, env: Env, e: Event)
    requires OneLines(b)
    ensures OneLines(RuleStep(b, env, e).0)
  {
    hide OneLineEach, CheckAvailable, Upsert, FindLine, WithoutLine, PickTitle, Visible, Put;
    NothingIsOneLine();
    match e
    case Adds(u, products, dto) =>
      var cur := See(b, env.streams, u, env.now);
      UpsertPuts(if cur.Some? then cur.value.items else [], dto.item);
    case Removes(u, product, variantId) =>
      var cur := See(b, env.streams, u, env.now);
      RemovingKeepsOneLine(if cur.Some? then cur.value.items else [], product, variantId);
    case Updates(u, product, quantity, variantId) =>
      var cur := See(b, env.streams, u, env.now);
      var items := if cur.Some? then cur.value.items else [];
      var k := FindLine(items, product, VariantKey(variantId));
      if k < |items| {
        SetQuantityKeepsOneLine(items, k, quantity);
      }
    case _ =>
  }

  lemma {:induction false} OneLinesRun(b: RuleBook, env: Env, es: seq<Event>)
    requires OneLines(b)
    ensures OneLines(RuleRun(b, env, es).0)
  {
    if es != [] {
      OneLinesRun(b, env, es[..|es| - 1]);
      hide RuleStep, OneLines;
      OneLinesStep(RuleRun(b, env, es[..|es| - 1]).0, EnvRun(env, es[..|es| - 1]), es[|es| - 1]);
    }
  }

  /** In every reachable state no cart has two lines for the same product and variant. */
  lemma OneLineForEach(env: Env, es: seq<Event>, u: UserId)
    requires StreamsOk(env.streams, env.used, env.now) && AllowedRun(env, es)
    ensures OneLineEach(Seen(CacheRun(Store(map[], map[]), env, es).0, EnvRun(env, es), u).items)
  {
    ReadShowsRule(env, es, u);
    OneLinesRun(map[], env, es);
  }

  // ---------- the reverse index ----------

  /** In every reachable state the index of a stream holds every user with a cart from it. */
  lemma IndexComplete(env: Env, es: seq<Event>, u: UserId, s: StreamId)
    requires StreamsOk(env.streams, env.used, env.now) && AllowedRun(env, es)
    requires TiedTo(CacheRun(Store(map[], map[]), env, es).0, u, s, EnvRun(env, es).now)
    ensures u in CacheRun(Store(map[], map[]), env, es).0.Members(s)
  {
    EmptyRelated(env);
    CacheRefinesRule(Store(map[], map[]), map[], env, es);
    var c := CacheRun(Store(map[], map[]), env, es).0;
    assert UserOk(c, EnvRun(env, es).streams, EnvRun(env, es).used, u, EnvRun(env, es).now);
  }

  /** After the end hook every indexed cart of the stream is stamped, and the index holds just those users. */
  lemma HookStampsAll(c: Cache, s: StreamId, endedAt: int, now: int)
    ensures var c' := OnStreamEnded(c, s, endedAt, now);
            && (forall u :: u in c.Members(s) && TiedTo(c, u, s, now) ==>
                  LoadCartState(c', u, now).expiresAt == Some(ExpiryFromEnd(endedAt)))
            && (forall u :: u in c'.Members(s) <==> u in c.Members(s) && TiedTo(c', u, s, now))
            && (forall u :: TiedTo(c', u, s, now) <==> TiedTo(c, u, s, now))
  {
  }

  /** The converse of completeness fails: emptying a cart line by line leaves its holder in the index. */
  lemma EmptiedCartStaysIndexed(c: Cache, env: Env, u: UserId, product: ProductId, variantId: Option<string>)
    requires CacheOk(c, env.streams, env.used, env.now) && CacheView(c, env.streams, u, env.now).Some?
    requires WithoutLine(CacheView(c, env.streams, u, env.now).value.items, product, VariantKey(variantId)) == []
    ensures var s := CacheView(c, env.streams, u, env.now).value.stream;
            var c' := RemoveCartItem(c, env.streams, u, product, variantId, env.now).0;
            u in c'.Members(s) && !TiedTo(c', u, s, env.now)
  {
    LoadFacts(c, env.streams, env.used, u, env.now);
  }
}
