/**
 Cart calls that overlap. A call reads the stored cart in one step and writes in later
 ones, so a write can land after the cart was checked out. Each cart that is filled from
 empty gets a number, which only the proofs see: it tells a checked-out cart from the next.
 */
module CartRaces {
  import opened Base
  import opened Streams
  import opened Shop
  import opened Redis
  import opened Carts
  import opened CartRule
  import opened CartSweep

  datatype Change =
    | Add(products: Products, dto: AddDto)
    | Update(product: ProductId, quantity: nat, variantId: Option<string>)
    | Remove(product: ProductId, variantId: Option<string>)

  /** A sweep's visit is a `Look`; an end hook's visit to one holder is a `Restamp`. */
  datatype Task =
    | Look
    | Show
    | Change(change: Change)
    | CheckOut
    | Restamp(stream: StreamId, endedAt: int)

  datatype Stage = Begun | Loaded | Kept | Renewed | Shown | Done

  /** A call under way: what it does, how far it is, and the cart it carries with its number. */
  datatype Job = Job(user: UserId, task: Task, stage: Stage, st: CartState, cart: nat)

  /** The cart a change wants to store. */
  function Changed(change: Change, st: CartState): Result<CartState, CartError> {
    match change
    case Add(_, dto) =>
      if st.items == [] && !Given(dto.streamId) then Err(StreamIdRequired)
      else if Given(st.streamId) && Given(dto.streamId) && dto.streamId != st.streamId then Err(OtherStream)
      else
        Ok(CartState(Upsert(st.items, dto.item), if st.streamId.Some? then st.streamId else dto.streamId,
                     PickTitle(st.streamTitle, dto.streamTitle), None, None))
    case Update(product, quantity, variantId) =>
      var k := FindLine(st.items, product, VariantKey(variantId));
      if k == |st.items| then Err(ItemNotFound)
      else
        Ok(CartState(st.items[k := st.items[k].(quantity := quantity)], st.streamId, st.streamTitle, st.expiresAt,
                     None))
    case Remove(product, variantId) =>
      var next := WithoutLine(st.items, product, VariantKey(variantId));
      Ok(if next != [] then CartState(next, st.streamId, st.streamTitle, st.expiresAt, None) else EMPTY)
  }

  /** The number of the cart a change makes: a new one if there was none. */
  function NumberOf(j: Job, next: nat): nat {
    if j.stage.Kept? && j.task.Change? && j.st.items == [] then next else j.cart
  }

  /** One step of a call on the store. */
  function Move(c: Cache, streams: StreamTable, now: int, j: Job): (Cache, Job) {
    var u := j.user;
    match j.stage
    case Begun =>
      if j.task.Change? && j.task.change.Add? && CheckAvailable(j.task.change.products, j.task.change.dto.item).Some?
      then (c, j.(stage := Done))
      else (c, j.(stage := Loaded, st := LoadCartState(c, u, now)))
    case Loaded =>
      if j.task.Restamp? then
        if j.st.items == [] || j.st.streamId != Some(j.task.stream)
        then (c.Srem(j.task.stream, u), j.(stage := Done))
        else
          var expires := ExpiryFromEnd(j.task.endedAt);
          (SaveCartState(c, u, j.st.(expiresAt := Some(expires)), Some(Max(1, SecondsLeft(expires, now))), now),
           j.(stage := Done))
      else
        var (c', r) := EnforceCartExpiry(c, streams, u, j.st, now);
        (c', j.(stage := if j.task.Look? then Done else Kept, st := r))
    case Kept =>
      if j.task.Change? then
        var next := Changed(j.task.change, j.st);
        if next.Err? then (c, j.(stage := Done))
        else if next.value.items == [] then (ClearCart(c, u, next.value.streamId), j.(stage := Done, st := EMPTY))
        else
          var (c', r) := EnforceCartExpiry(c, streams, u, next.value, now);
          (c', j.(stage := Renewed, st := r))
      else if j.st.items != [] && j.st.expiresAt.Some? && Max(0, SecondsLeft(j.st.expiresAt.value, now)) <= 0
      then (ClearCart(c, u, j.st.streamId), j.(stage := Shown, st := EMPTY))
      else (c, j.(stage := Shown))
    case Renewed =>
      (if j.st.items == [] then c
       else
         var ttl := if j.st.expiresAt.Some? then Some(Max(1, SecondsLeft(j.st.expiresAt.value, now))) else None;
         SaveCartState(c, u, j.st, ttl, now),
       j.(stage := Done))
    case Shown =>
      (if j.task.CheckOut? && j.st.items != [] then ClearCart(c, u, j.st.streamId) else c, j.(stage := Done))
    case Done => (c, j)
  }

  /** Does this step store a cart? */
  predicate Writes(c: Cache, streams: StreamTable, now: int, j: Job) {
    match j.stage
    case Loaded =>
      if j.task.Restamp? then j.st.items != [] && j.st.streamId == Some(j.task.stream)
      else Move(c, streams, now, j).1.st.items != []
    case Kept => Move(c, streams, now, j).1.stage.Renewed? && Move(c, streams, now, j).1.st.items != []
    case Renewed => j.st.items != []
    case _ => false
  }

  /** The last step of a checkout, which clears the cart. */
  predicate Leaves(j: Job) {
    j.stage.Shown? && j.task.CheckOut? && j.st.items != []
  }

  // ---------- a call that is not interrupted ----------

  function Rank(s: Stage): nat {
    match s
    case Begun => 5
    case Loaded => 4
    case Kept => 3
    case Renewed => 2
    case Shown => 1
    case Done => 0
  }

  /** All steps of a call, one right after the other. */
  function Finish(c: Cache, streams: StreamTable, now: int, j: Job): (Cache, Job)
    decreases Rank(j.stage)
  {
    if j.stage.Done? then (c, j)
    else var (c', j') := Move(c, streams, now, j); Finish(c', streams, now, j')
  }

  function Begin(u: UserId, task: Task): Job {
    Job(u, task, Begun, EMPTY, 0)
  }

  lemma FinishOne(c: Cache, streams: StreamTable, now: int, j: Job)
    ensures var (c', j') := Move(c, streams, now, j);
            Finish(c, streams, now, j) == if j'.stage.Done? then (c', j') else Finish(c', streams, now, j')
  {
  }

  /** The steps of a read, a display and a checkout add up to the whole call. */
  lemma WholeRead(c: Cache, streams: StreamTable, u: UserId, now: int, task: Task)
    requires task.Look? || task.Show? || task.CheckOut?
    ensures var (c', j) := Finish(c, streams, now, Begin(u, task));
            match task
            case Look => (c', j.st) == LoadCartForUser(c, streams, u, now)
            case Show => (c', j.st) == GetCart(c, streams, u, now)
            case _ => c' == CacheStep(c, Env(streams, map[], now), ChecksOut(u)).0
  {
    hide EnforceCartExpiry, ClearCart, LoadCartState;
    var j0 := Begin(u, task);
    var (c1, j1) := Move(c, streams, now, j0);
    var (c2, j2) := Move(c1, streams, now, j1);
    var (c3, j3) := Move(c2, streams, now, j2);
    FinishOne(c, streams, now, j0);
    FinishOne(c1, streams, now, j1);
    FinishOne(c2, streams, now, j2);
    FinishOne(c3, streams, now, j3);
  }

  /** So do those of an end hook's visit, as far as the visited holder goes. */
  lemma WholeVisit(c: Cache, streams: StreamTable, u: UserId, now: int, s: StreamId, endedAt: int)
    requires u in c.Members(s)
    ensures var c1 := Finish(c, streams, now, Begin(u, Restamp(s, endedAt))).0;
            var c2 := OnStreamEnded(c, s, endedAt, now);
            && OnlyUser(c, c1, u) && SameEntry(c1, c2, u) && (u in c1.Members(s) <==> u in c2.Members(s))
  {
    var j0 := Begin(u, Restamp(s, endedAt));
    FinishOne(c, streams, now, j0);
    FinishOne(c, streams, now, j0.(stage := Loaded, st := LoadCartState(c, u, now)));
  }

  function ChangeCall(c: Cache, streams: StreamTable, u: UserId, now: int, change: Change):
    (Cache, Result<CartState, CartError>)
  {
    match change
    case Add(products, dto) => AddCartItem(c, streams, products, u, dto, now)
    case Update(product, quantity, variantId) => UpdateCartItem(c, streams, u, product, quantity, variantId, now)
    case Remove(product, variantId) => RemoveCartItem(c, streams, u, product, variantId, now)
  }

  /** A change is its steps, and then the display unless it was refused. */
  lemma WholeChange(c: Cache, streams: StreamTable, u: UserId, now: int, change: Change)
    ensures var c1 := Finish(c, streams, now, Begin(u, Task.Change(change))).0;
            var (c2, r) := ChangeCall(c, streams, u, now, change);
            if r.Ok? then GetCart(c1, streams, u, now) == (c2, r.value) else c1 == c2
  {
    hide EnforceCartExpiry, ClearCart, SaveCartState, LoadCartState, GetCart, Upsert, FindLine, WithoutLine;
    var j0 := Begin(u, Task.Change(change));
    var (c1, j1) := Move(c, streams, now, j0);
    var (c2, j2) := Move(c1, streams, now, j1);
    var (c3, j3) := Move(c2, streams, now, j2);
    FinishOne(c, streams, now, j0);
    FinishOne(c1, streams, now, j1);
    FinishOne(c2, streams, now, j2);
    FinishOne(c3, streams, now, j3);
  }

  // ---------- runs ----------

  /** `number` is that of the stored cart of each user, `out` are the carts checked out so far. */
  datatype World = World(cache: Cache, streams: StreamTable, now: int, jobs: seq<Job>,
    number: map<UserId, nat>, next: nat, out: set<(UserId, nat)>)

  datatype Event =
    | Waits(ms: nat)
    | Rows(streams: StreamTable)
    | Begins(user: UserId, task: Task)
    | Goes(job: nat)

  function Go(w: World, k: nat): World
    requires k < |w.jobs|
  {
    var j := w.jobs[k].(cart := NumberOf(w.jobs[k], w.next));
    var (c', moved) := Move(w.cache, w.streams, w.now, j);
    var j' := if j.stage.Begun? && j.user in w.number then moved.(cart := w.number[j.user]) else moved;
    w.(cache := c', jobs := w.jobs[k := j'],
       number := if Writes(w.cache, w.streams, w.now, j) then w.number[j.user := j.cart] else w.number,
       next := if j.cart == w.next then w.next + 1 else w.next,
       out := if Leaves(j) then w.out + {(j.user, j.cart)} else w.out)
  }

  function Step(w: World, e: Event): World {
    match e
    case Waits(ms) => w.(now := w.now + ms)
    case Rows(streams) => w.(streams := streams)
    case Begins(u, task) => w.(jobs := w.jobs + [Begin(u, task)])
    case Goes(k) => if k < |w.jobs| then Go(w, k) else w
  }

  function Run(w: World, es: seq<Event>): World {
    if es == [] then w else Step(Run(w, es[..|es| - 1]), es[|es| - 1])
  }

  /** Nothing at all, or a cart with its stream. */
  ghost predicate StateFrom(st: CartState) {
    if st.items == [] then st == EMPTY else Given(st.streamId)
  }

  ghost predicate JobFrom(j: Job, next: nat) {
    && StateFrom(j.st) && j.cart <= next && (j.st.items != [] ==> j.cart < next)
    && (j.stage.Begun? ==> j.st == EMPTY)
  }

  ghost predicate Inv(w: World) {
    && (forall u :: u in w.cache.entries ==> Tied(w.cache, u) && u in w.number)
    && (forall u :: u in w.number ==> w.number[u] < w.next)
    && (forall k :: 0 <= k < |w.jobs| ==> JobFrom(w.jobs[k], w.next))
    && (forall o :: o in w.out ==> o.1 < w.next)
  }

  /** The user's cart in the store, if it is this one. */
  ghost predicate Holds(w: World, u: UserId, n: nat) {
    LoadCartState(w.cache, u, w.now).items != [] && u in w.number && w.number[u] == n
  }

  // ---------- one step ----------

  ghost predicate Tied(c: Cache, u: UserId) {
    u in c.entries ==>
      && c.entries[u].value.Stored? && c.entries[u].value.state.items != []
      && Given(c.entries[u].value.state.streamId)
  }

  /** The user's entry is as before, or gone. */
  ghost predicate Left(c: Cache, c': Cache, u: UserId) {
    u in c'.entries ==> u in c.entries && c'.entries[u] == c.entries[u]
  }

  ghost predicate Stored(c: Cache, u: UserId, now: int) {
    u in c.entries && Alive(c.entries[u], now) && Tied(c, u)
  }

  lemma EnforceEffect(c: Cache, streams: StreamTable, u: UserId, st: CartState, now: int)
    requires StateFrom(st)
    ensures var (c', r) := EnforceCartExpiry(c, streams, u, st, now);
            && OnlyUser(c, c', u) && (r.items == [] ==> r == EMPTY && Left(c, c', u))
            && (r.items != [] ==> Given(r.streamId) && Stored(c', u, now) && Unpassed(st, now))
  {
    hide ClearCart, SaveCartState, OnlyUser, Stored, Left;
    LeftAlone(c, u);
    ClearedEntry(c, u, st.streamId);
    if st.items != [] && st.streamId.value in streams {
      SaveEffect(c, u, st.(updatedAt := Some(now)), None, now);
      IndexedAlready(c, u, st.(updatedAt := Some(now)), None, now);
      var expires := ExpiryFromEnd(EffectiveEnd(streams[st.streamId.value]));
      var ttl := SecondsLeft(expires, now);
      if ttl > 0 {
        SaveEffect(c, u, st.(expiresAt := Some(expires), updatedAt := Some(now)), Some(ttl), now);
        IndexedAlready(c, u, st.(expiresAt := Some(expires), updatedAt := Some(now)), Some(ttl), now);
      }
    }
  }

  lemma IndexedAlready(c: Cache, u: UserId, st: CartState, ttl: Option<nat>, now: int)
    requires st.items != [] && Given(st.streamId)
    ensures Index(SaveCartState(c, u, st, ttl, now), u, st.streamId) == SaveCartState(c, u, st, ttl, now)
  {
    var c' := SaveCartState(c, u, st, ttl, now);
    assert c'.Members(st.streamId.value) + {u} == c'.Members(st.streamId.value);
    assert c'.sets[st.streamId.value := c'.Members(st.streamId.value)] == c'.sets;
  }

  lemma SaveEffect(c: Cache, u: UserId, st: CartState, ttl: Option<nat>, now: int)
    requires st.items != [] && Given(st.streamId) && (ttl.Some? ==> ttl.value > 0)
    ensures OnlyUser(c, SaveCartState(c, u, st, ttl, now), u) && Stored(SaveCartState(c, u, st, ttl, now), u, now)
  {
  }

  lemma ChangedFrom(change: Change, st: CartState)
    requires StateFrom(st)
    ensures Changed(change, st).Ok? && Changed(change, st).value.items != [] ==>
              Given(Changed(change, st).value.streamId)
    ensures st.items == [] && Changed(change, st).Ok? && Changed(change, st).value.items != [] ==> change.Add?
  {
  }

  /** A step touches its user's entry only, and leaves it, clears it, or stores the cart it carries. */
  lemma MoveEffect(c: Cache, streams: StreamTable, now: int, j: Job)
    requires Tied(c, j.user) && StateFrom(j.st)
    ensures var (c', j') := Move(c, streams, now, j);
            && OnlyUser(c, c', j.user) && j'.user == j.user && j'.cart == j.cart && j'.task == j.task
            && StateFrom(j'.st) && !j'.stage.Begun?
            && (j.stage.Begun? && j.st == EMPTY && j'.st.items != [] ==> j.user in c.entries)
            && (if Writes(c, streams, now, j) then Stored(c', j.user, now) else Left(c, c', j.user))
            && (Leaves(j) ==> j.user !in c'.entries)
            && (Leaves(j) || j.stage.Done? ==> j'.stage.Done?)
  {
    hide OnlyUser, Stored, Left, EnforceCartExpiry, SaveCartState, ClearCart, Changed;
    match j.stage
    case Begun => LeftAlone(c, j.user);
    case Loaded =>
      if j.task.Restamp? {
        VisitEffect(c, streams, now, j);
      } else {
        EnforceEffect(c, streams, j.user, j.st, now);
      }
    case Kept =>
      LeftAlone(c, j.user);
      ClearedEntry(c, j.user, j.st.streamId);
      if j.task.Change? {
        ChangedFrom(j.task.change, j.st);
        if Changed(j.task.change, j.st).Ok? {
          var next := Changed(j.task.change, j.st).value;
          ClearedEntry(c, j.user, next.streamId);
          if next.items != [] {
            EnforceEffect(c, streams, j.user, next, now);
          }
        }
      }
    case Renewed =>
      LeftAlone(c, j.user);
      if j.st.items != [] {
        var ttl := if j.st.expiresAt.Some? then Some(Max(1, SecondsLeft(j.st.expiresAt.value, now))) else None;
        SaveEffect(c, j.user, j.st, ttl, now);
      }
    case Shown =>
      LeftAlone(c, j.user);
      ClearedEntry(c, j.user, j.st.streamId);
    case Done => LeftAlone(c, j.user);
  }

  lemma LeftAlone(c: Cache, u: UserId)
    ensures OnlyUser(c, c, u) && Left(c, c, u)
  {
  }

  lemma ClearedEntry(c: Cache, u: UserId, s: Option<StreamId>)
    ensures var c' := ClearCart(c, u, s); OnlyUser(c, c', u) && Left(c, c', u) && u !in c'.entries
  {
  }

  lemma VisitEffect(c: Cache, streams: StreamTable, now: int, j: Job)
    requires j.stage.Loaded? && j.task.Restamp? && StateFrom(j.st)
    ensures var c' := Move(c, streams, now, j).0;
            && OnlyUser(c, c', j.user)
            && if Writes(c, streams, now, j) then Stored(c', j.user, now) else Left(c, c', j.user)
  {
  }

  /** What one step of a call means for the world. */
  lemma GoEffect(w: World, k: nat)
    requires Inv(w) && k < |w.jobs|
    ensures var j := w.jobs[k].(cart := NumberOf(w.jobs[k], w.next));
            var (w', u) := (Go(w, k), j.user);
            && w'.streams == w.streams && w'.now == w.now
            && |w'.jobs| == |w.jobs| && w'.jobs == w.jobs[k := w'.jobs[k]]
            && OnlyUser(w.cache, w'.cache, u) && w'.jobs[k].user == u && w'.jobs[k].task == j.task
            && JobFrom(w'.jobs[k], w'.next) && w.next <= w'.next && j.cart < w'.next
            && (if Writes(w.cache, w.streams, w.now, j)
                then Stored(w'.cache, u, w.now) && w'.number == w.number[u := j.cart]
                else Left(w.cache, w'.cache, u) && w'.number == w.number)
            && w'.out == (if Leaves(j) then w.out + {(u, j.cart)} else w.out)
            && (Leaves(j) ==> u !in w'.cache.entries)
            && (Leaves(j) || j.stage.Done? ==> w'.jobs[k].stage.Done?)
  {
    hide Move, Writes, OnlyUser, Left, Stored;
    var j := w.jobs[k].(cart := NumberOf(w.jobs[k], w.next));
    assert JobFrom(w.jobs[k], w.next);
    MoveEffect(w.cache, w.streams, w.now, j);
  }

  lemma InvStep(w: World, e: Event)
    requires Inv(w)
    ensures Inv(Step(w, e))
  {
    hide Go, Move, Writes;
    if e.Goes? && e.job < |w.jobs| {
      GoEffect(w, e.job);
    }
  }

  lemma {:induction false} InvRun(w: World, es: seq<Event>)
    requires Inv(w)
    ensures Inv(Run(w, es))
  {
    if es != [] {
      InvRun(w, es[..|es| - 1]);
      hide Inv;
      InvStep(Run(w, es[..|es| - 1]), es[|es| - 1]);
    }
  }

  lemma EmptyInv(streams: StreamTable, now: int)
    ensures Inv(World(Store(map[], map[]), streams, now, [], map[], 0, {}))
  {
  }

  // ---------- a checked-out cart stays away, over a run ----------

  /** No stored cart is one that was checked out. */
  ghost predicate AllAway(w: World) {
    forall o :: o in w.out ==> !Holds(w, o.0, o.1)
  }

  /** A call stores the cart it carries although that cart has been checked out. */
  ghost predicate BringsBack(w: World, e: Event) {
    && e.Goes? && e.job < |w.jobs|
    && var j := w.jobs[e.job].(cart := NumberOf(w.jobs[e.job], w.next));
       Writes(w.cache, w.streams, w.now, j) && (j.user, j.cart) in w.out
  }

  lemma StepAway(w: World, e: Event)
    requires Inv(w) && AllAway(w)
    ensures AllAway(Step(w, e)) <==> !BringsBack(w, e)
  {
    hide Go, Move, Writes;
    if e.Goes? && e.job < |w.jobs| {
      GoEffect(w, e.job);
      var (j, w') := (w.jobs[e.job].(cart := NumberOf(w.jobs[e.job], w.next)), Step(w, e));
      if Writes(w.cache, w.streams, w.now, j) {
        assert Holds(w', j.user, j.cart);
      }
      forall o | o in w'.out && !BringsBack(w, e) ensures !Holds(w', o.0, o.1) {
        if o in w.out {
          assert !Holds(w, o.0, o.1);
        }
      }
    }
  }

  ghost predicate StaysAway(w: World, es: seq<Event>) {
    (es == [] || StaysAway(w, es[..|es| - 1])) && AllAway(Run(w, es))
  }

  ghost predicate NoneBroughtBack(w: World, es: seq<Event>) {
    es == [] || (NoneBroughtBack(w, es[..|es| - 1]) && !BringsBack(Run(w, es[..|es| - 1]), es[|es| - 1]))
  }

  /** Over every overlapping run checked-out carts stay away exactly when no call stores one again. */
  lemma {:induction false} StaysAwayExactly(w: World, es: seq<Event>)
    requires Inv(w) && AllAway(w)
    ensures StaysAway(w, es) <==> NoneBroughtBack(w, es)
  {
    if es != [] {
      StaysAwayExactly(w, es[..|es| - 1]);
      InvRun(w, es[..|es| - 1]);
      hide Step, BringsBack, AllAway, Inv;
      if StaysAway(w, es[..|es| - 1]) {
        AwayNow(w, es[..|es| - 1]);
        StepAway(Run(w, es[..|es| - 1]), es[|es| - 1]);
      }
    }
  }

  lemma AwayNow(w: World, es: seq<Event>)
    requires StaysAway(w, es)
    ensures AllAway(Run(w, es))
  {
  }

  // ---------- gone for good ----------

  /** This call carries that cart and may still store it. */
  ghost predicate Carries(j: Job, u: UserId, n: nat, now: int) {
    && j.user == u && j.cart == n && j.st.items != []
    && match j.stage
       case Loaded => if j.task.Restamp? then j.st.streamId == Some(j.task.stream) else Unpassed(j.st, now)
       case Kept =>
         && j.task.Change? && Changed(j.task.change, j.st).Ok?
         && Changed(j.task.change, j.st).value.items != [] && Unpassed(Changed(j.task.change, j.st).value, now)
       case Renewed => true
       case _ => false
  }

  ghost predicate NoneCarries(w: World, u: UserId, n: nat) {
    forall k :: 0 <= k < |w.jobs| ==> !Carries(w.jobs[k], u, n, w.now)
  }

  ghost predicate Gone(w: World, u: UserId, n: nat) {
    !Holds(w, u, n) && NoneCarries(w, u, n)
  }

  /** A step stores, and then carries, only what the call carried before or has just read. */
  lemma MoveCarries(c: Cache, streams: StreamTable, now: int, j: Job)
    requires StateFrom(j.st)
    ensures Writes(c, streams, now, j) && j.st.items != [] ==> Carries(j, j.user, j.cart, now)
    ensures var j' := Move(c, streams, now, j).1;
            Carries(j', j.user, j.cart, now) && j.st.items != [] ==>
              Carries(j, j.user, j.cart, now) || j.stage.Begun?
  {
    hide ClearCart, SaveCartState, LoadCartState, EnforceCartExpiry, Changed, Stored, Left, OnlyUser, Unpassed;
    if j.stage.Loaded? {
      EnforceEffect(c, streams, j.user, j.st, now);
    } else if j.stage.Kept? && j.task.Change? {
      ChangedFrom(j.task.change, j.st);
      if Changed(j.task.change, j.st).Ok? && Changed(j.task.change, j.st).value.items != [] {
        EnforceEffect(c, streams, j.user, Changed(j.task.change, j.st).value, now);
      }
    }
  }

  /** A call without a cart gets one only by reading it, or by making a new one. */
  lemma MoveFromNothing(c: Cache, streams: StreamTable, now: int, j: Job)
    requires j.st == EMPTY && !j.stage.Begun?
    ensures Writes(c, streams, now, j) || Move(c, streams, now, j).1.st.items != [] ==> j.stage.Kept? && j.task.Change?
  {
  }

  lemma GoCarries(w: World, k: nat, n: nat)
    requires Inv(w) && k < |w.jobs| && n < w.next
    ensures var j := w.jobs[k].(cart := NumberOf(w.jobs[k], w.next));
            && (Writes(w.cache, w.streams, w.now, j) && j.cart == n ==> Carries(w.jobs[k], j.user, n, w.now))
            && (Carries(Go(w, k).jobs[k], j.user, n, w.now) ==>
                  Carries(w.jobs[k], j.user, n, w.now) || Holds(w, j.user, n))
  {
    var j := w.jobs[k].(cart := NumberOf(w.jobs[k], w.next));
    assert JobFrom(w.jobs[k], w.next);
    if j.stage.Begun? {
      assert j == w.jobs[k];
    } else {
      hide Move, Writes, Carries;
      MoveCarries(w.cache, w.streams, w.now, j);
      if j.st.items == [] {
        MoveFromNothing(w.cache, w.streams, w.now, j);
        CarriesSomething(Go(w, k).jobs[k], j.user, n, w.now);
      } else {
        assert j == w.jobs[k];
        MoveEffect(w.cache, w.streams, w.now, j);
        CarriesSomething(Go(w, k).jobs[k], j.user, n, w.now);
      }
    }
  }

  lemma CarriesSomething(j: Job, u: UserId, n: nat, now: int)
    ensures Carries(j, u, n, now) ==> j.user == u && j.cart == n && j.st.items != []
  {
  }

  lemma GoneStep(w: World, e: Event, u: UserId, n: nat)
    requires Inv(w) && Gone(w, u, n) && n < w.next
    ensures Gone(Step(w, e), u, n) && n < Step(w, e).next
  {
    hide Go, Move, Writes;
    if e.Goes? && e.job < |w.jobs| {
      GoEffect(w, e.job);
      GoCarries(w, e.job, n);
    }
  }

  lemma {:induction false} GoneRun(w: World, es: seq<Event>, u: UserId, n: nat)
    requires Inv(w) && Gone(w, u, n) && n < w.next
    ensures Gone(Run(w, es), u, n) && n < Run(w, es).next
  {
    if es != [] {
      GoneRun(w, es[..|es| - 1], u, n);
      InvRun(w, es[..|es| - 1]);
      hide Inv, Gone, Step;
      GoneStep(Run(w, es[..|es| - 1]), es[|es| - 1], u, n);
    }
  }

  /** A call that carries the cart stores it once its stream is live. */
  lemma CarriedWrites(c: Cache, now: int, j: Job, live: Stream)
    requires StateFrom(j.st) && Carries(j, j.user, j.cart, now) && live.isLive
    ensures exists s :: Writes(c, map[s := live], now, j)
  {
    hide ClearCart, SaveCartState, LoadCartState, Changed;
    var st := if j.stage.Kept? then Changed(j.task.change, j.st).value else j.st;
    if j.stage.Kept? {
      ChangedFrom(j.task.change, j.st);
    }
    assert Writes(c, map[st.streamId.value := live], now, j);
  }

  lemma RunTwo(w: World, streams: StreamTable, k: nat)
    requires k < |w.jobs|
    ensures Run(w, [Rows(streams), Goes(k)]) == Go(w.(streams := streams), k)
  {
    var es := [Rows(streams), Goes(k)];
    hide Go;
    assert es[..1] == [Rows(streams)] && es[..1][..0] == [];
    assert Run(w, []) == w;
    assert Run(w, [Rows(streams)]) == Step(w, Rows(streams));
  }

  lemma WrittenHolds(w: World, k: nat)
    requires Inv(w) && k < |w.jobs| && NumberOf(w.jobs[k], w.next) == w.jobs[k].cart
    requires Writes(w.cache, w.streams, w.now, w.jobs[k])
    ensures Holds(Go(w, k), w.jobs[k].user, w.jobs[k].cart)
  {
    hide Go, Move, Writes;
    assert w.jobs[k].(cart := w.jobs[k].cart) == w.jobs[k];
    GoEffect(w, k);
  }

  lemma CarriedComesBack(w: World, k: nat, u: UserId, n: nat, live: Stream)
    requires Inv(w) && k < |w.jobs| && Carries(w.jobs[k], u, n, w.now) && live.isLive
    ensures exists es :: Holds(Run(w, es), u, n)
  {
    var j := w.jobs[k];
    assert JobFrom(j, w.next) && NumberOf(j, w.next) == j.cart;
    CarriedWrites(w.cache, w.now, j, live);
    var s :| Writes(w.cache, map[s := live], w.now, j);
    hide Inv, Writes, Go, Holds, Run, Carries, NumberOf, JobFrom;
    MoreStreams(w, map[s := live]);
    WrittenHolds(w.(streams := map[s := live]), k);
    RunTwo(w, map[s := live], k);
  }

  lemma MoreStreams(w: World, streams: StreamTable)
    requires Inv(w)
    ensures Inv(w.(streams := streams))
  {
  }

  /**
   A checked-out cart never comes back, whatever happens later, exactly when it is not
   stored and no call under way carries it.
   */
  lemma GoneForGoodExactly(w: World, u: UserId, n: nat)
    requires Inv(w) && (u, n) in w.out
    ensures (forall es :: !Holds(Run(w, es), u, n)) <==> Gone(w, u, n)
  {
    hide Inv, Holds, Carries, Run;
    OutNumbered(w, u, n);
    if Gone(w, u, n) {
      forall es ensures !Holds(Run(w, es), u, n) {
        GoneRun(w, es, u, n);
      }
    } else if Holds(w, u, n) {
      RunNothing(w);
      assert Holds(Run(w, []), u, n);
    } else {
      var k :| 0 <= k < |w.jobs| && Carries(w.jobs[k], u, n, w.now);
      CarriedComesBack(w, k, u, n, Stream(true, None, None, None, 0, {}));
    }
  }

  lemma RunNothing(w: World)
    ensures Run(w, []) == w
  {
  }

  lemma OutNumbered(w: World, u: UserId, n: nat)
    requires Inv(w) && (u, n) in w.out
    ensures n < w.next
  {
    assert (u, n).1 < w.next;
  }

  // ---------- one call at a time ----------

  /** No other call of the user is under way. */
  predicate Alone(w: World, u: UserId, k: nat) {
    forall i :: 0 <= i < |w.jobs| && i != k && w.jobs[i].user == u ==> w.jobs[i].stage.Done?
  }

  /** Calls of one buyer wait for each other: one begins only when the others are done. */
  ghost predicate InTurn(w: World, e: Event) {
    e.Begins? ==> Alone(w, e.user, |w.jobs|)
  }

  ghost predicate RunInTurn(w: World, es: seq<Event>) {
    es == [] || (RunInTurn(w, es[..|es| - 1]) && InTurn(Run(w, es[..|es| - 1]), es[|es| - 1]))
  }

  /** At most one call of each buyer is under way, and no checked-out cart is stored or carried. */
  ghost predicate Orderly(w: World) {
    && (forall i :: 0 <= i < |w.jobs| && !w.jobs[i].stage.Done? ==> Alone(w, w.jobs[i].user, i))
    && (forall o :: o in w.out ==> Gone(w, o.0, o.1))
  }

  lemma OrderlyStep(w: World, e: Event)
    requires Inv(w) && Orderly(w) && InTurn(w, e)
    ensures Orderly(Step(w, e)) && !BringsBack(w, e)
  {
    var w' := Step(w, e);
    StepAway(w, e);
    forall o | o in w.out ensures Gone(w', o.0, o.1) {
      OutNumbered(w, o.0, o.1);
      GoneStep(w, e, o.0, o.1);
    }
    hide Go, Move, Writes, BringsBack;
    if e.Goes? && e.job < |w.jobs| {
      var k := e.job;
      var j := w.jobs[k].(cart := NumberOf(w.jobs[k], w.next));
      GoEffect(w, k);
      if Leaves(j) {
        assert forall i :: 0 <= i < |w'.jobs| && w'.jobs[i].user == j.user ==> w'.jobs[i].stage.Done?;
        assert Gone(w', j.user, j.cart);
      }
    }
  }

  /** If each buyer's calls, sweeps and hooks included, wait for each other, no checked-out cart comes back. */
  lemma {:induction false} InTurnSuffices(w: World, es: seq<Event>)
    requires Inv(w) && Orderly(w) && RunInTurn(w, es)
    ensures Orderly(Run(w, es)) && NoneBroughtBack(w, es)
  {
    if es != [] {
      InTurnSuffices(w, es[..|es| - 1]);
      InvRun(w, es[..|es| - 1]);
      hide Inv, Orderly, Step, BringsBack, InTurn;
      OrderlyStep(Run(w, es[..|es| - 1]), es[|es| - 1]);
    }
  }

  /** The cart a checkout has read is the stored one, while that is alive. */
  ghost predicate Reads(c: Cache, now: int, j: Job) {
    j.task.CheckOut? && (j.stage.Loaded? || j.stage.Kept? || j.stage.Shown?) ==>
      LoadCartState(c, j.user, now).items == [] || LoadCartState(c, j.user, now).items == j.st.items
  }

  /** A checkout's clearing drops lines it has not ordered. */
  ghost predicate DropsLines(w: World, e: Event) {
    e.Goes? && e.job < |w.jobs| && Leaves(w.jobs[e.job]) && !Reads(w.cache, w.now, w.jobs[e.job])
  }

  lemma MoveReads(c: Cache, streams: StreamTable, now: int, j: Job)
    requires Tied(c, j.user) && StateFrom(j.st) && Reads(c, now, j)
    ensures var (c', j') := Move(c, streams, now, j); Reads(c', now, j')
  {
  }

  ghost predicate AllRead(w: World) {
    forall i :: 0 <= i < |w.jobs| ==> Reads(w.cache, w.now, w.jobs[i])
  }

  lemma OthersRead(c: Cache, c': Cache, u: UserId, j: Job, now: int)
    requires OnlyUser(c, c', u) && Reads(c, now, j) && (j.user == u ==> j.stage.Done?)
    ensures Reads(c', now, j)
  {
  }

  lemma AllReadStep(w: World, e: Event)
    requires Inv(w) && Orderly(w) && AllRead(w)
    ensures AllRead(Step(w, e)) && !DropsLines(w, e)
  {
    if e.Goes? && e.job < |w.jobs| {
      var k, w' := e.job, Step(w, e);
      var j := w.jobs[k].(cart := NumberOf(w.jobs[k], w.next));
      MoveReads(w.cache, w.streams, w.now, j);
      hide Move, Writes, Gone;
      GoEffect(w, k);
      if w.jobs[k].stage.Done? {
        DoneStays(w, k);
      } else {
        forall i | 0 <= i < |w'.jobs| && i != k ensures Reads(w'.cache, w'.now, w'.jobs[i]) {
          OthersRead(w.cache, w'.cache, j.user, w.jobs[i], w.now);
        }
      }
    }
  }

  lemma DoneStays(w: World, k: nat)
    requires k < |w.jobs| && w.jobs[k].stage.Done?
    ensures Go(w, k).cache == w.cache && Go(w, k).now == w.now && |Go(w, k).jobs| == |w.jobs|
    ensures forall i :: 0 <= i < |w.jobs| && i != k ==> Go(w, k).jobs[i] == w.jobs[i]
  {
  }

  ghost predicate NoneDropped(w: World, es: seq<Event>) {
    es == [] || (NoneDropped(w, es[..|es| - 1]) && !DropsLines(Run(w, es[..|es| - 1]), es[|es| - 1]))
  }

  /** Then no checkout clears a line it has not ordered either. */
  lemma {:induction false} InTurnLosesNothing(w: World, es: seq<Event>)
    requires Inv(w) && Orderly(w) && AllRead(w) && RunInTurn(w, es)
    ensures AllRead(Run(w, es)) && NoneDropped(w, es)
  {
    if es != [] {
      var front := es[..|es| - 1];
      InTurnLosesNothing(w, front);
      InvRun(w, front);
      InTurnSuffices(w, front);
      hide Inv, Orderly, Step, AllRead, DropsLines, InTurn;
      AllReadStep(Run(w, front), es[|es| - 1]);
    }
  }

  // ---------- a run that brings a cart back ----------

  lemma RunMore(w: World, es: seq<Event>, e: Event)
    ensures Run(w, es + [e]) == Step(Run(w, es), e)
  {
    assert (es + [e])[..|es|] == es;
  }

  /** An unstamped cart of a live stream. */
  ghost predicate OnAir(st: CartState, streams: StreamTable) {
    && st.items != [] && Given(st.streamId) && st.expiresAt == None
    && st.streamId.value in streams && streams[st.streamId.value].isLive
  }

  /** Only this job may differ, beside cache, numbers and checked-out carts. */
  ghost predicate OtherJobs(w: World, w': World, k: nat) {
    && w'.streams == w.streams && w'.now == w.now && |w'.jobs| == |w.jobs|
    && forall i :: 0 <= i < |w.jobs| && i != k ==> w'.jobs[i] == w.jobs[i]
  }

  lemma GoReads(w: World, k: nat, u: UserId, task: Task)
    requires k < |w.jobs| && w.jobs[k] == Begin(u, task) && !task.Change? && u in w.number
    ensures var w' := Go(w, k);
            && OtherJobs(w, w', k) && w'.cache == w.cache && w'.number == w.number && w'.out == w.out
            && w'.jobs[k] == Job(u, task, Loaded, LoadCartState(w.cache, u, w.now), w.number[u])
  {
  }

  lemma GoChecksOut(w: World, k: nat)
    requires k < |w.jobs| && OnAir(w.jobs[k].st, w.streams) && w.jobs[k].task.CheckOut?
    requires w.jobs[k].stage.Loaded? || w.jobs[k].stage.Kept? || w.jobs[k].stage.Shown?
    ensures var (j, w') := (w.jobs[k], Go(w, k));
            && OtherJobs(w, w', k) && w'.jobs[k].task == j.task && w'.jobs[k].user == j.user
            && w'.jobs[k].cart == j.cart && OnAir(w'.jobs[k].st, w'.streams)
            && (j.stage.Loaded? ==> w'.jobs[k].stage.Kept?) && (j.stage.Kept? ==> w'.jobs[k].stage.Shown?)
            && w'.out == (if j.stage.Shown? then w.out + {(j.user, j.cart)} else w.out)
  {
  }

  lemma GoStores(w: World, k: nat)
    requires k < |w.jobs| && OnAir(w.jobs[k].st, w.streams) && w.jobs[k].task.Look? && w.jobs[k].stage.Loaded?
    ensures var (j, w') := (w.jobs[k], Go(w, k));
            && w'.out == w.out && Holds(w', j.user, j.cart)
            && Refreshed(LoadCartState(w'.cache, j.user, w'.now), j.st)
  {
  }

  /**
   Any buyer with a cart of a live stream: a read of it (a look at the cart, or the hourly
   sweep) that began before the checkout and saves after it puts every line back.
   */
  lemma LateReadBringsBack(w: World, u: UserId)
    requires Inv(w) && u in w.number && OnAir(LoadCartState(w.cache, u, w.now), w.streams)
    ensures var (a, b) := (|w.jobs|, |w.jobs| + 1);
            var bought := [Begins(u, Look), Goes(a), Begins(u, CheckOut), Goes(b), Goes(b), Goes(b), Goes(b)];
            var w' := Run(w, bought + [Goes(a)]);
            && (u, w.number[u]) in Run(w, bought).out && Holds(w', u, w.number[u])
            && Refreshed(LoadCartState(w'.cache, u, w'.now), LoadCartState(w.cache, u, w.now))
  {
    var (a, b) := (|w.jobs|, |w.jobs| + 1);
    var st := LoadCartState(w.cache, u, w.now);
    hide Go, Run, LoadCartState, OnAir, Holds, Refreshed, Inv;
    var e1 := [Begins(u, Look)];
    var e2 := e1 + [Goes(a)];
    var e3 := e2 + [Begins(u, CheckOut)];
    var e4 := e3 + [Goes(b)];
    var e5 := e4 + [Goes(b)];
    var e6 := e5 + [Goes(b)];
    var e7 := e6 + [Goes(b)];
    assert e7 == [Begins(u, Look), Goes(a), Begins(u, CheckOut), Goes(b), Goes(b), Goes(b), Goes(b)];
    RunNothing(w);
    RunMore(w, [], Begins(u, Look));
    assert [] + [Begins(u, Look)] == e1;
    GoReads(Run(w, e1), a, u, Look);
    RunMore(w, e1, Goes(a));
    RunMore(w, e2, Begins(u, CheckOut));
    GoReads(Run(w, e3), b, u, CheckOut);
    RunMore(w, e3, Goes(b));
    GoChecksOut(Run(w, e4), b);
    RunMore(w, e4, Goes(b));
    GoChecksOut(Run(w, e5), b);
    RunMore(w, e5, Goes(b));
    GoChecksOut(Run(w, e6), b);
    RunMore(w, e6, Goes(b));
    GoStores(Run(w, e7), a);
    RunMore(w, e7, Goes(a));
  }

  lemma GoBegins(w: World, k: nat, u: UserId, change: Change)
    requires k < |w.jobs| && w.jobs[k] == Begin(u, Task.Change(change)) && u in w.number
    requires change.Add? ==> CheckAvailable(change.products, change.dto.item).None?
    ensures var w' := Go(w, k);
            && OtherJobs(w, w', k) && w'.cache == w.cache
            && w'.jobs[k] == Job(u, Task.Change(change), Loaded, LoadCartState(w.cache, u, w.now), w.number[u])
  {
  }

  lemma GoKeeps(w: World, k: nat)
    requires k < |w.jobs| && OnAir(w.jobs[k].st, w.streams) && w.jobs[k].task.Change? && w.jobs[k].stage.Loaded?
    ensures var (j, w') := (w.jobs[k], Go(w, k));
            && OtherJobs(w, w', k) && w'.jobs[k] == j.(stage := Kept, st := w'.jobs[k].st)
            && Changed(j.task.change, w'.jobs[k].st) == Changed(j.task.change, j.st)
  {
  }

  lemma GoRenews(w: World, k: nat, next: CartState)
    requires k < |w.jobs| && w.jobs[k].task.Change? && w.jobs[k].stage.Kept?
    requires Changed(w.jobs[k].task.change, w.jobs[k].st) == Ok(next) && OnAir(next, w.streams)
    ensures var w' := Go(w, k);
            && OtherJobs(w, w', k) && w'.jobs[k].user == w.jobs[k].user && w'.jobs[k].stage.Renewed?
            && w'.jobs[k].st.items == next.items
  {
  }

  lemma GoSaves(w: World, k: nat)
    requires k < |w.jobs| && w.jobs[k].stage.Renewed? && w.jobs[k].st.items != []
    ensures var (j, w') := (w.jobs[k], Go(w, k));
            OtherJobs(w, w', k) && LoadCartState(w'.cache, j.user, w'.now).items == j.st.items
  {
  }

  lemma GoShows(w: World, k: nat)
    requires k < |w.jobs| && OnAir(w.jobs[k].st, w.streams) && w.jobs[k].task.CheckOut?
    requires w.jobs[k].stage.Loaded? || w.jobs[k].stage.Kept?
    ensures var (j, w') := (w.jobs[k], Go(w, k));
            && w'.number == (if j.stage.Loaded? then w.number[j.user := j.cart] else w.number)
            && w'.jobs[k].st == j.st.(updatedAt := w'.jobs[k].st.updatedAt)
            && LoadCartState(w'.cache, j.user, w'.now)
            == (if j.stage.Loaded? then w'.jobs[k].st else LoadCartState(w.cache, j.user, w.now))
  {
  }

  /**
   And the other way round: a change made while a checkout is between its last read and its
   clearing is cleared with the cart, unordered.
   */
  lemma LateChangeIsDropped(w: World, u: UserId, change: Change, next: CartState)
    requires Inv(w) && u in w.number && OnAir(LoadCartState(w.cache, u, w.now), w.streams)
    requires change.Add? ==> CheckAvailable(change.products, change.dto.item).None?
    requires Changed(change, LoadCartState(w.cache, u, w.now)) == Ok(next) && OnAir(next, w.streams)
    requires next.items != LoadCartState(w.cache, u, w.now).items
    ensures var (a, b) := (|w.jobs|, |w.jobs| + 1);
            DropsLines(
              Run(w, [Begins(u, CheckOut), Goes(a), Goes(a), Goes(a),
                      Begins(u, Task.Change(change)), Goes(b), Goes(b), Goes(b), Goes(b)]),
              Goes(a))
  {
    var (a, b) := (|w.jobs|, |w.jobs| + 1);
    hide Go, Run, LoadCartState, OnAir, Inv, Changed;
    var begins, changes := Begins(u, CheckOut), Begins(u, Task.Change(change));
    var e1 := [begins];
    var e2 := e1 + [Goes(a)];
    var e3 := e2 + [Goes(a)];
    var e4 := e3 + [Goes(a)];
    var e5 := e4 + [changes];
    var e6 := e5 + [Goes(b)];
    var e7 := e6 + [Goes(b)];
    var e8 := e7 + [Goes(b)];
    var e9 := e8 + [Goes(b)];
    assert e9 == [begins, Goes(a), Goes(a), Goes(a), changes, Goes(b), Goes(b), Goes(b), Goes(b)];
    RunNothing(w);
    RunMore(w, [], begins);
    assert [] + [begins] == e1;
    GoReads(Run(w, e1), a, u, CheckOut);
    RunMore(w, e1, Goes(a));
    GoChecksOut(Run(w, e2), a);
    GoShows(Run(w, e2), a);
    RunMore(w, e2, Goes(a));
    GoChecksOut(Run(w, e3), a);
    GoShows(Run(w, e3), a);
    RunMore(w, e3, Goes(a));
    RunMore(w, e4, changes);
    GoBegins(Run(w, e5), b, u, change);
    RunMore(w, e5, Goes(b));
    ChangedAlike(change, LoadCartState(w.cache, u, w.now), Run(w, e6).jobs[b].st);
    GoKeeps(Run(w, e6), b);
    RunMore(w, e6, Goes(b));
    GoRenews(Run(w, e7), b, next);
    RunMore(w, e7, Goes(b));
    OnAirItems(next, w.streams);
    GoSaves(Run(w, e8), b);
    RunMore(w, e8, Goes(b));
    OnAirItems(Run(w, e9).jobs[a].st, w.streams);
  }

  lemma ChangedAlike(change: Change, a: CartState, b: CartState)
    requires b == a.(updatedAt := b.updatedAt)
    ensures Changed(change, a) == Changed(change, b)
  {
  }

  lemma OnAirItems(st: CartState, streams: StreamTable)
    requires OnAir(st, streams)
    ensures st.items != []
  {
  }
}
