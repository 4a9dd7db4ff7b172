# Live-commerce kernel: a Dafny model

This project models the commerce kernel of a live-shopping backend and proves what it
keeps over whole runs:

- a seller's variant matrix and the stock it derives (`VariantMatrix`, `Variants`, `ProductsService`);
- orders placed in two phases, cancelled and moved through their statuses, by any number
  of buyers and sellers (`Shop`, `StockLedger`, `OrderCalls`, `OrderRuns`, `OrderRaces`, `OrdersService`);
- carts kept in a key store with expiry and a reverse index by stream, against a rule a
  buyer could state in one line (`Streams`, `Redis`, `Carts`, `CartRule`, `CartStamps`, `CartSweep`, `CartRaces`, `CartService`);
- the way from cart to paid order, with sessions, retries and refunds (`Checkout`, `Payments`, `PaymentRaces`, `PaymentsService`);
- replacement requests and their balance payment (`Replacements`, `ReplacementRaces`, `ReplacementsService`);
- printers with their parsers: CSV, address snapshots, amounts in words, stored variants
  (`Csv`, `AddressSnapshot`, `Words`, `Variants`);
- exact money: the GST split, the delivery fee over invoice pages, the payout breakdown
  (`Money`, `Invoices`, `Payout`).

**Layout.** A module such as `Carts` gives each operation as a function from old state to
new state and answer. The modules beside it (`CartRule`, `CartSweep`) prove what those
functions mean over all inputs and all runs. The `...Service` modules hold the classes that
work in place, as the services do: each method's contract equates its answer and the whole
new state with the function of the old state, and everything it does not name stays. The
`Valid()` of the classes for orders, payments and replacements is the invariant of the runs,
which the empty tables satisfy and every method keeps.

**Conventions.** Invoice and payout amounts are whole paise; shop prices are `real` rupees
with an explicit half-up round at the payment boundary. Times are integer milliseconds,
time-to-live is in seconds. A table is a map, or a sequence whose positions are the ids (a
new row gets a fresh id). Unique columns and the clearing of a deleted stream
from its orders are part of the tables' behaviour. What the network answers (quote, waybill, tracking status,
signature check, refund outcome, payment provider ids) is a parameter.

## What the proofs found

Properties one would expect of the code, and where exactly they stop:

- **A repeated option name is not always refused.** A matrix can be submitted for a list of
  options exactly when its combination keys differ: no option repeats a value and a
  repeated name follows only one-value options (`AcceptableOptions`); two options called
  `A` with one value each pass (`RepeatedNameAccepted`). The final "missing rows" check can
  never fire.
- **Plain stock can go negative.** The commit does not test the stock of a product without
  variants: two buyers validated against the last piece both get it, and one order naming
  it twice takes it twice (`PlainStockCanGoNegative`). It never happens exactly when each
  commit asks for no more than is there at that moment (`NeverNegativeExactly`).
- **Order calls test first and write later.** Runs keep the two apart. Then stock is
  conserved, and given back once per cancellation, exactly when no status is written over
  a cancelled order (`Conservation`, `RestockedOnce`); cancelled is final exactly when no
  other status is (`CancelledAbsorbs`); a tracking id means in transit exactly when no
  write pulls a tracked order back (`TrackingExactly`). All of it holds when every write
  finds the status its test saw (`OnTimeRunsAreSafe`). Runs in which it fails: two
  cancellations give the stock back twice (`LateCancelRestocksTwice`), the paid mark of a
  checkout revives an order cancelled in between (`PaidMarkRevives`), and a cancellation
  lands on a parcel already with the partner (`CancelledInTransit`). That variants are
  never oversold holds however calls overlap.
- **An order made by `create` can ship without its packing video.** Deleting a stream
  clears it from its orders, and an order without a stream may be shipped by hand
  (`ShippedWithoutVideo`). However calls and deletions overlap, created orders are packed,
  in transit or tracked only with a video exactly when no shipment by hand is written on
  one without (`PackedExactly`), and that never happens when a stream is deleted only once
  each of its orders is in transit or has its video (`GuardedDeletionsSuffice`).
- **One payment, one order or one refund.** The order table keeps payment ids and Razorpay
  ids unique, so in every overlapping run each has at most one order (`OneOrderEach`,
  `UniqueRun`). That no payment has both an order and a refund, nor two refunds, holds
  exactly when every settlement acts on a payment without an earlier order or refund call
  (`OnceExactly`). Whole calls with written rows guarantee that (`ExactlyOnce`); a lost row
  (`LostRowAllowsBoth`) or an overlap (`OverlappingVerifyRefundsOrder`) breaks it. A
  settlement refused for its ids has already created its order: it is left unpaid, with its
  stock taken, exactly when the cart could be checked out and an id is in use
  (`LeavesUnpaidExactly`).
- **A waiting replacement can be unable to move on.** Asking again for a balance payment
  returns the stored Razorpay id but opens no new session. So a request awaiting payment
  can move on exactly when its balance is unopened and comes to a rupee or more, or its
  session is alive (`MovesOnExactly`): thirty minutes without payment end it, and a price
  difference that rounds to less than a rupee is stuck from the start. `markBalancePaid`,
  which could help, has no caller.
- **Replacement calls overlap too.** Fulfilment is paid throughout exactly when no
  fulfilment write lands on an unpaid request (`PaidExactly`), and an order has one open
  request exactly when none is opened beside another (`OneOpenExactly`). Two submissions at
  once (`TwoAtOnce`) and a late approval (`LateApprovalUnpays`) break them; writes that find
  what their tests saw do not, and keep to the order of statuses (`ArrowsExactly`). Two
  openings of one balance leave the second Razorpay id stored; a payment made on the first
  can never be verified (`SecondIdReplaces`, `VerifiableExactly`, `ReplacedForGood`).
- **A returned order can become delivered again** by the tracking poll
  (`ReturnedCanBeDeliveredAgain`); it is the only step backwards of a whole call on a
  healthy order (`BackwardExactly`).
- **A stamp can outlive the window it was computed from.** For streams that go live at
  once, or are scheduled and stopped within the window of their plan, the cart follows the
  buyer's rule in every run (`CacheRefinesRule`). With rows changed at will (a moved plan, a
  second start, a second stop, a late hook) what buyers see is the rule's at every moment
  exactly when no cart the rule shows carries a passed stamp or an expired key
  (`AlwaysFollowsExactly`); nobody's call can cause that if no stream outlives a window it
  once had off air (`HonouredWindowsSuffice`). In any reachable state a cart read off air
  goes stale exactly when the stream, set live, outlives that window but its last second
  (`OutlivedGoesStale`). So it is after a planned start, whose stamp neither reads nor
  sweeps renew while live, and whose stream can be live that long because its start can be
  moved while it is live and the eight-hour limit counts from there
  (`PlannedStampDecides`), and when an ended stream is set live again
  (`RestartedCartIsLost`).
- **A checked-out cart can come back, and a change can be lost.** A call reads the cart, and saves it in a later step:
  even a plain look, or the hourly sweep, that began before the checkout and saves after it
  puts every line back (`LateReadBringsBack`). A checked-out cart never comes back exactly
  when no call under way still carries it (`GoneForGoodExactly`); over every overlapping run
  checked-out carts stay away exactly when no call stores one (`StaysAwayExactly`). A change
  saved between a checkout's last read and its clearing is cleared with the cart, unordered
  (`LateChangeIsDropped`). Neither happens when the calls on one buyer's cart wait for each
  other (`InTurnSuffices`, `InTurnLosesNothing`).
- **Amounts in words stop at one hundred crore**: from there on different amounts print
  alike (`HundredCroreCollides`).
- **Below one rupee of goods the delivery shares lose part of the fee** (`AllShares`). This
  is a property of the function; an order from one stream has a single seller, who bears
  the whole fee.
- **A name alone is read back as a street.** An address with a contact name but neither
  phone nor street loses the name when its snapshot is read (`AddressSnapshot.RoundTrip`).
- **Line ends of CSV files may be mixed** (`AnyLineEnds`); a carriage return outside quotes
  is ignored, but it does part a closing quote from an opening one (`CarriageReturnExactly`).
- **The comment on `cancelOrder` names pending and paid orders only;** the code also cancels
  packed ones, and the model follows the code.

## Model

| member | source | states |
|---|---|---|
| Variants.ParseVariantOptions | src/products/product-variants.util.ts:26-41 | the loop over the payload yields the recursive reading of its options: malformed rows, blank names and empty value lists are dropped, texts are trimmed |
| Variants.ParseVariantItems | src/products/product-variants.util.ts:43-83 | the same for item rows, with negative or non-numeric prices and stocks dropped and stock floored |
| Variants.OptionReadExactly | src/products/product-variants.util.ts:32-40 | an option row is read if and only if it has a name and a visible value; its values are the trimmed visible ones, in their order |
| Variants.ItemReadExactly | src/products/product-variants.util.ts:49-80 | an item row is read if and only if it has a visible id and label and non-negative numbers for price and stock; each field is the one given, trimmed or, for stock, rounded down |
| Variants.ReadIsNormal | src/products/product-variants.util.ts:26-83 | whatever is submitted, what is read has trimmed, non-empty ids, labels, names and values and non-negative price and stock |
| Variants.EmitReadRoundTrip | src/products/product-variants.util.ts:168-183 | reading the emitted normal form returns exactly the same options and items |
| Variants.NormaliseIdempotent | src/products/product-variants.util.ts:113-186 | normalising any payload twice equals normalising it once |
| VariantMatrix.ComputeCombinations | src/products/product-variants.util.ts:91-104 | the nested loops produce the rows of the Cartesian product in option order |
| VariantMatrix.RowsLength | src/products/product-variants.util.ts:86-104 | the number of rows is the product of the option sizes, the expected count |
| VariantMatrix.CombinationsDistinct | src/products/product-variants.util.ts:91-104 | for all option lists: the combinations all differ if and only if no option repeats a value and only one-value options have their name repeated later |
| VariantMatrix.KeyInjective | src/products/product-variants.util.ts:106-108 | when one key is free of the separator, equal keys mean equal choices for every option |
| VariantMatrix.KeysDistinct | src/products/product-variants.util.ts:106-108 | without the separator in names and values, all combination keys differ under the same condition, both ways |
| Variants.ValidateAndNormalize | src/products/product-variants.util.ts:113-186 | accepts if and only if ids are distinct and the rows' keys are distinct, as many as expected, and all among the combinations; then returns the normal form, the least price and the stock sum; the missing-rows error is never returned |
| Variants.Pigeonhole | src/products/product-variants.util.ts:153-164 | distinct keys, all among the combination keys and as many as those, leave no combination out and show the combination keys distinct |
| Variants.AcceptedIsBijection | src/products/product-variants.util.ts:132-164 | an accepted matrix pairs rows and combinations one to one by key, and combination keys are distinct |
| Variants.EveryCombinationOnce | src/products/product-variants.util.ts:132-164 | free of the separator, every combination is chosen by exactly one accepted row |
| Variants.EveryRowIsCombination | src/products/product-variants.util.ts:153-156 | free of the separator, every accepted row chooses one of the combinations |
| Variants.AcceptableOptions | src/products/product-variants.util.ts:132-164 | some set of rows is accepted for an option list if and only if its combination keys differ; without the separator, if and only if the list is unambiguous |
| Variants.RepeatedNameAccepted | src/products/product-variants.util.ts:98-102 | a concrete accepted matrix with a repeated option name |
| Variants.DeltaMovesOne | src/products/product-variants.util.ts:196-229 | a stock delta that succeeds changes exactly one variant's stock and the total by delta, keeps ids and options, and leaves no negative stock |
| Variants.DeltaUndone | src/products/product-variants.util.ts:196-229 | delta followed by its opposite is the identity |
| Variants.DeltaKeepsNormal | src/products/product-variants.util.ts:196-229 | a stock delta keeps the stored form normal, so it is read back as it is |
| ProductsService.ProductsService.Create | src/products/products.service.ts:21-51 | with variants the product is stored exactly when they are acceptable, with price the minimum and stock the sum; without, as given; a failure stores nothing |
| ProductsService.ProductsService.Update | src/products/products.service.ts:89-132 | only the owner; variants re-derive price and stock or nothing changes; a null payload is refused, a missing one is not |
| ProductsService.DerivedIsSound | src/products/products.service.ts:38-48 | what these two write satisfies the invariant the stock results start from |
| Shop.CheckItemExactly | src/orders/orders.service.ts:181-209 | a requested line passes if and only if the product, or the first variant with the id, exists and has that much stock |
| Shop.PrepareExactly | src/orders/orders.service.ts:69-210 | an order is accepted if and only if a buyer asks, in a stream that is open for orders and lists every product, for things in stock |
| Shop.PreparedTicket | src/orders/orders.service.ts:976-1029 | what is then committed has a line for each request, with its quantity, at the price of the variant or product it names |
| Streams.AssertExactly | src/orders/orders.service.ts:69-107 | open means started and either live without an end or at most a day after the recorded end |
| Streams.WindowIsADay | src/orders/orders.service.ts:270-275 | the cart window ends a day after the first known of end, session end, start and creation |
| StockLedger.MoveLinesClosedForm | src/orders/orders.service.ts:1049-1068 | a transaction that succeeds shifts every product and variant by exactly its total quantity over all lines, however many lines name it, and recomputes the sum |
| StockLedger.ShiftedFigure | src/orders/orders.service.ts:1049-1068 | every stock figure, of a variant or of the product, moves by the ordered quantity |
| StockLedger.RestockSucceeds | src/orders/orders.service.ts:1580-1600 | giving stock back never fails |
| StockLedger.MoveLinesSound | src/products/product-variants.util.ts:205-211 | a transaction that succeeds leaves no variant negative, stock equal to the sum of variants, and variant ids unchanged |
| StockLedger.PricedLinesFit | src/orders/orders.service.ts:181-209 | lines that passed validation name existing products and existing variants |
| StockLedger.DifferentLinesTaken | src/orders/orders.service.ts:1049-1068 | lines for different things, each with enough stock by itself, can all be taken in one transaction |
| StockLedger.CreateThenCancel | src/orders/orders.service.ts:1030-1070 | create then cancel always succeeds and restores every product exactly, also with several lines on one product |
| StockLedger.CancelExactly | src/orders/orders.service.ts:1553-1617 | a buyer can cancel exactly their own pending, paid and packed orders, and then every line is given back |
| StockLedger.PlainStockAfterCreate | src/orders/orders.service.ts:1062-1067 | a plain product's stock stays non-negative through create if and only if its lines ask for no more than there is |
| StockLedger.NamedOnceStaysNonNegative | src/orders/orders.service.ts:992-1067 | validation directly followed by commit keeps a plain product non-negative when the order names it once |
| OrderRuns.InvStep | src/orders/orders.service.ts:976-1877 | every step, in any order and with test and write of each call apart, keeps variants sound, orders and open tickets fitting, and what the pending writes rely on |
| OrderRuns.VariantsNeverOversold | src/orders/orders.service.ts:1049-1061 | over every overlapping of tests, transactions and writes of all calls, no variant is negative and stock is the sum of variants |
| OrderRuns.Conservation | src/orders/orders.service.ts:1030-1605 | over every overlapping run, for each product and variant: stock plus quantities on orders not cancelled equals the initial value plus the seller's edits plus the quantity of every order over whose cancellation a status was written; so it is conserved if and only if no such write meets a cancelled order holding some of it |
| OrderRuns.NeverNegativeExactly | src/orders/orders.service.ts:1062-1067 | over every run, stock never goes negative if and only if each successful commit asks no plain product for more than it has |
| OrderRuns.SerialCommitCovered | src/orders/orders.service.ts:992-1067 | a commit right after its own validation satisfies that condition when the order names each plain product once |
| OrderRaces.PlainStockCanGoNegative | src/orders/orders.service.ts:1062-1067 | two concrete runs that end with a stock of minus one |
| OrderCalls.WholeCall | src/orders/orders.service.ts:1423-1877 | the separated test and write of each call, done one right after the other, are exactly the whole call |
| OrderCalls.PassesExactly | src/orders/orders.service.ts:1423-1877 | each of the eight calls writes if and only if its caller is the buyer (cancel, return) or sells one of the products (all others) and the order is in the condition the protocol asks for |
| OrderCalls.OnlyParties | src/orders/orders.service.ts:1423-1877 | so no one else, and nothing out of turn, changes products or orders |
| OrderCalls.WriteBrings | src/orders/orders.service.ts:1441-1877 | a write sets its status and exactly the tracking id, video, carrier or time the call brings |
| OrderCalls.BackwardExactly | src/orders/orders.service.ts:1441-1877 | a whole call takes an order backwards if and only if it is a passing tracking poll on a returned or cancelled order |
| OrderCalls.ReturnedCanBeDeliveredAgain | src/orders/orders.service.ts:1862-1877 | any returned order that went with the partner becomes delivered by the poll of any of its sellers |
| OrderRuns.LifecycleSafe | src/orders/orders.service.ts:1678-1829 | however calls and stream deletions overlap, an order still tied to its stream is packed, in transit or tracked only with its packing video |
| OrderRuns.TrackingExactly | src/orders/orders.service.ts:1441-1829 | over every overlapping run, a tracking id means shipped, delivered or returned throughout if and only if no write sets another status on an order that has one |
| OrderRuns.PackedExactly | src/orders/orders.service.ts:1472-1497 | over every overlapping run with stream deletions, the orders the run creates are packed, in transit or tracked only with a packing video throughout, if and only if no shipment by hand is written on one of them without it |
| OrderRuns.GuardedDeletionsSuffice | src/streams/streams.service.ts:743-757 | that never happens when each deleted stream has only orders in transit or with a packing video |
| OrderRaces.ShippedWithoutVideo | prisma/migrations/20260322120000_order_stream_pack_delivery/migration.sql:19-23 | a run from any state: the stream of a paid order is deleted and the order is shipped by hand without a video |
| OrderRuns.UniqueRun | prisma/schema.prisma:492-493 | in every overlapping run no two orders carry one payment id or one Razorpay id, since the table refuses such a paid mark |
| OrderRuns.CancelledAbsorbs | src/orders/orders.service.ts:1441-1878 | over every overlapping run, cancelled orders stay cancelled if and only if no other status is written over a cancelled order |
| OrderRuns.RestockedOnce | src/orders/orders.service.ts:1561-1605 | over every overlapping run an order's stock is given back as often as it became cancelled plus once for each status written over it while cancelled; at most once when there is no such write |
| OrderRuns.OnTimeRunsAreSafe | src/orders/orders.service.ts:1423-1877 | if every write finds its order in the status its test saw, no status is written over a cancelled order and no tracked order is pulled back, so all of the above hold |
| OrderRuns.OnTimeMovesForward | src/orders/orders.service.ts:1441-1877 | such a write moves a status forward, except the poll from returned to delivered |
| OrderRuns.WholeKeepsHealthy | src/orders/orders.service.ts:1423-1877 | a whole call keeps sound products, fitting orders, packing videos and tracking, for every call and every table |
| OrderRaces.LateCancelRestocksTwice | src/orders/orders.service.ts:1561-1605 | a second cancel is refused after the first, but one whose test came earlier adds every quantity a second time |
| OrderRaces.PaidMarkRevives | src/orders/orders.service.ts:848-878 | a run from any state: the buyer cancels between the two writes of a checkout, all stock is back, and the order ends as paid |
| OrderRaces.CancelledInTransit | src/orders/orders.service.ts:1561-1605 | a run from any state: a cancellation tested while packed lands after the partner took the parcel and leaves a cancelled order with a tracking id that the poll accepts |
| OrdersService.OrdersService.ValidateItems | src/orders/orders.service.ts:150-210 | the in-order loop reports the first failing check of the validation function, over all items |
| OrdersService.OrdersService.PriceItems | src/orders/orders.service.ts:1000-1028 | validated requests become lines at today's price, and the running total is the sum over those lines |
| OrdersService.OrdersService.MoveAll | src/orders/orders.service.ts:1049-1068 | the working copy of the transaction equals the recursive movement of all lines, failing at the first refused line |
| OrdersService.OrdersService.Create | src/orders/orders.service.ts:976-1070 | commits the prepared order at the next id or returns the error and leaves products and orders untouched |
| OrdersService.OrdersService.AcceptOrder | src/orders/orders.service.ts:1423-1457 | only a seller in the order, only from pending; else nothing changes |
| OrdersService.OrdersService.ShipOrder | src/orders/orders.service.ts:1460-1505 | only orders outside a stream, only from paid; records the tracking id |
| OrdersService.OrdersService.DeliverOrder | src/orders/orders.service.ts:1508-1550 | only from shipped; records the time |
| OrdersService.OrdersService.CancelOrder | src/orders/orders.service.ts:1553-1605 | own orders that are pending, paid or packed: restocks all lines and cancels, or does neither |
| OrdersService.OrdersService.ReturnOrder | src/orders/orders.service.ts:1619-1650 | own orders, only from delivered; no restock |
| OrdersService.OrdersService.RecordPackingVideo | src/orders/orders.service.ts:1659-1706 | live orders only, only from paid, only with a video |
| OrdersService.OrdersService.RequestDeliveryFromPartner | src/orders/orders.service.ts:1721-1829 | live orders only, only from packed, only with a waybill |
| OrdersService.OrdersService.GetDeliveryStatus | src/orders/orders.service.ts:1844-1877 | a delivered answer marks the order delivered from any status and keeps a recorded delivery time |
| Redis.RedisService.Set | src/redis/redis.service.ts:46-52 | the key holds the value and the new expiry only; without a time-to-live any earlier expiry is dropped |
| Redis.RedisService.Get | src/redis/redis.service.ts:42-44 | the value while its time has not come, otherwise nothing |
| Redis.RedisService.Sadd | src/redis/redis.service.ts:76-78 | exactly this member is added to exactly this set |
| Redis.RedisService.Srem | src/redis/redis.service.ts:80-82 | exactly this member is removed from exactly this set |
| Redis.PutThenGet | src/redis/redis.service.ts:42-56 | a value is read back exactly until its time to live is over, other keys and all sets are untouched, and a deleted key is gone |
| Redis.AddThenRemove | src/redis/redis.service.ts:76-82 | adding makes exactly one member of one set, removing takes exactly that one away |
| Carts.CheckAvailableExactly | src/orders/orders.service.ts:577-595 | the cart accepts an item if and only if an order for it would find it in stock |
| Carts.UpsertPuts | src/orders/orders.service.ts:612-637 | the item replaces the first line for its product and trimmed variant, or is appended if there is none; nothing else moves, and no second line for one product and variant appears |
| Carts.WithoutLineTakes | src/orders/orders.service.ts:669-674 | exactly the lines for the product and trimmed variant go, the others stay in their order |
| Carts.TitleStays | src/orders/orders.service.ts:608-611 | the cart keeps its first visible stream title |
| CartRule.EnforceFacts | src/orders/orders.service.ts:277-365 | enforcement answers with the cart if and only if the stream is live or the window still has a whole second, keeps the stored stamp and expiry truthful, and touches one user only |
| CartRule.PersistFacts | src/orders/orders.service.ts:439-457 | persisting stores the new cart under the same rule, and the key outlives all but the window's last second |
| CartRule.GetCartFacts | src/orders/orders.service.ts:520-537 | the extra zero-seconds test of the display read never drops a cart that enforcement kept |
| CartRule.StepRefines | src/orders/orders.service.ts:267-391 | each call on the cache and each step of a stream's life, scheduled or not, matches one step of the rule with the same answer and keeps the refinement relation, which says that the index is complete |
| CartRule.CacheRefinesRule | src/orders/orders.service.ts:267-457 | over every run of adds, updates, removals, reads, checkouts, schedules, starts, stops, end hooks, deletions, sweeps and passing time, the cache gives exactly the rule's answers |
| CartRule.ReadShowsRule | src/orders/orders.service.ts:421-424 | from an empty cache, after any run, a read shows a cart if and only if the rule book has one and its stream is live or now is at most the end plus 24 hours minus one second |
| CartRule.VisibleForADay | src/orders/orders.service.ts:321-345 | a cart is shown while its stream is live and until a day less a second after the first known of its times |
| CartRule.AddPuts | src/orders/orders.service.ts:576-640 | in any reachable state adding succeeds if and only if the item is in stock and the streams agree, and puts the item on its line of the cart a read shows |
| CartRule.UpdateSetsQuantity | src/orders/orders.service.ts:642-664 | in any reachable state updating succeeds if and only if the cart seen has such a line, and changes only its quantity |
| CartRule.RemoveTakes | src/orders/orders.service.ts:666-687 | in any reachable state the cart seen afterwards is the cart seen before without exactly the lines for that product and variant |
| CartRule.OneLineForEach | src/orders/orders.service.ts:612-637 | over every run no cart seen has two lines for one product and variant |
| CartRule.IndexComplete | src/orders/orders.service.ts:247-255 | in every reachable state each user with a non-empty cart of a stream is in that stream's holder set |
| CartRule.HookStampsAll | src/orders/orders.service.ts:368-391 | after the end hook each indexed cart of the stream expires 24 hours after the end, stale holders are gone, and no cart was lost |
| CartRule.EmptiedCartStaysIndexed | src/orders/orders.service.ts:666-687 | removing the last line leaves a stale holder, so the converse of completeness fails |
| CartStamps.EnforceMeetsRuleExactly | src/orders/orders.service.ts:277-365 | for any stored state and stream: the answer is the rule's if and only if the cart does not carry a passed stamp while the rule still shows it |
| CartStamps.OldStampDecides | src/orders/orders.service.ts:288-356 | a cart, stamped before or not, read while its stream is not live and next while it is live: lost if and only if the old window's whole seconds are over, though the rule still shows it |
| CartStamps.StampStays | src/orders/orders.service.ts:321-329 | while the stream is live no sequence of reads and sweeps renews or drops a stamp before it has passed |
| CartStamps.PlannedStampDecides | src/streams/streams.service.ts:716-719 | a cart, stamped before or not, read before a planned start, then read or swept any number of times while the stream is live, its start moved at will: lost if and only if 24 hours from the planned start are over |
| CartStamps.RestartedCartIsLost | src/streams/streams.service.ts:719-728 | setting an ended stream live again loses its carts, those stamped by the end hook included, 24 hours after the recorded end |
| CartStamps.AddDropsStamp | src/orders/orders.service.ts:637-661 | while the stream is live, adding drops an old stamp and updating keeps it |
| CartStamps.HappeningTracks | src/orders/orders.service.ts:267-457 | for any rows and any hook, each call of a buyer or sweep whose carts are not stale has the rule's answer and keeps cache and rule book alike |
| CartStamps.AlwaysFollowsExactly | src/orders/orders.service.ts:267-457 | over every run with any stream rows, hooks and calls: whoever looks sees the rule's cart at every moment if and only if at no moment a cart the rule shows has a passed stamp or an expired key; then all answers are the rule's |
| CartStamps.HonouredWindowsSuffice | src/streams/streams.service.ts:645-728 | no cart ever goes stale, whatever buyers do, if no stream is shown beyond a window it had off air or an end hook spoke of |
| CartStamps.OutlivedGoesStale | src/streams/streams.service.ts:719-728 | in any reachable state, a cart read off air whose stream is then set live goes stale if and only if the stream outlives that window but its last second |
| CartSweep.SweepOneIdempotent | src/orders/orders.service.ts:277-365 | at a fixed time enforcing twice leaves the store exactly as enforcing once |
| CartSweep.SweepEffect | src/orders/orders.service.ts:394-419 | after a scan with any repetitions, each scanned user's entry was enforced exactly once and every other entry is untouched |
| CartSweep.SweepLeavesOnlyWindows | src/orders/orders.service.ts:394-419 | when all keys were scanned, no cart outside its window is left and every cart inside keeps its lines, stream and title |
| CartSweep.SweepCountExact | src/orders/orders.service.ts:407-417 | the returned number is the number of carts the sweep emptied, with or without repeated keys |
| CartSweep.SurvivorMayCheckOut | src/orders/orders.service.ts:80-107 | a cart that survives enforcement passes the checkout's own window test when its stream was started and has its end recorded |
| CartSweep.OldFormatsGo | src/orders/orders.service.ts:216-241 | an unreadable value shows nothing, and a cart of the old format goes with its next read or sweep |
| CartRaces.WholeRead | src/orders/orders.service.ts:421-537 | the separated steps of a read, a display and a checkout, done one right after the other, are exactly the whole call |
| CartRaces.WholeChange | src/orders/orders.service.ts:576-687 | so are those of adding, updating and removing, with the display at their end |
| CartRaces.WholeVisit | src/orders/orders.service.ts:379-390 | so are those of the end hook's visit to one holder |
| CartRaces.InvStep | src/orders/orders.service.ts:213-457 | every step of an overlapping run keeps stored carts tied to a stream and numbered |
| CartRaces.StaysAwayExactly | src/orders/orders.service.ts:426-457 | over every overlapping run no checked-out cart is stored again if and only if no call saves the cart it carries after that was checked out |
| CartRaces.GoneForGoodExactly | src/orders/orders.service.ts:884 | a checked-out cart is never stored again in any later run if and only if it is not stored now and no call under way carries it and may still save it |
| CartRaces.InTurnSuffices | src/orders/orders.service.ts:421-457 | if calls, sweep visits and hook visits on one buyer's cart wait for each other, no checked-out cart comes back |
| CartRaces.InTurnLosesNothing | src/orders/orders.service.ts:803-884 | nor does any checkout then clear lines other than those it has read |
| CartRaces.LateChangeIsDropped | src/orders/orders.service.ts:803-884 | from any state with a cart of a live stream: any change to the lines that is saved after a checkout's last read is still stored when the checkout clears the cart, and goes with it |
| CartRaces.LateReadBringsBack | src/orders/orders.service.ts:321-329 | from any state with a cart of a live stream: a read begun before the checkout and saved after it stores all its lines again |
| CartService.CartService.LoadState | src/orders/orders.service.ts:216-241 | unreadable values read as empty, the legacy list as a cart of the epoch |
| CartService.CartService.Enforce | src/orders/orders.service.ts:277-365 | clears or refreshes in place exactly as the enforcement function says, and returns its state |
| CartService.CartService.Save | src/orders/orders.service.ts:426-437 | stores value, expiry and index entry together, or clears all when empty |
| CartService.CartService.Persist | src/orders/orders.service.ts:439-457 | enforces, then saves with the remaining time, at least one second |
| CartService.CartService.Get | src/orders/orders.service.ts:459-574 | the display read as a state change |
| CartService.CartService.StreamEnded | src/orders/orders.service.ts:368-391 | the loop over the holders, in any order, ends in the one state that stamps every tied cart and drops every stale holder |
| CartService.CartService.SweepAll | src/orders/orders.service.ts:394-419 | over any batches of keys the store ends as the sweep of their concatenation, and the counter is its cleared count |
| CartService.CartService.AddItem | src/orders/orders.service.ts:576-640 | refuses unknown products, variants, excess quantity and another stream; otherwise replaces or appends the line and stores the cart |
| CartService.CartService.UpdateItem | src/orders/orders.service.ts:642-664 | changes one line's quantity or reports it missing |
| CartService.CartService.RemoveItem | src/orders/orders.service.ts:666-687 | takes the lines for the product and variant from the stored cart, which is stored again or cleared |
| Checkout.PriceStands | src/orders/orders.service.ts:478-496 | a line is shown at the price of the product or first variant it names, and is not shown exactly if there is none |
| Checkout.AskedNearest | src/payments/payments.service.ts:165 | the amount asked for is the whole paisa nearest to the total |
| Checkout.CheckoutLosesNothing | src/orders/orders.service.ts:808-884 | a successful checkout adds one order with exactly the stored cart's lines at the prices shown, its total being their sum plus the fee, removes the cart and its index entry, and touches no other buyer's cart or index entry |
| Checkout.FailedCheckoutLeaves | src/orders/orders.service.ts:848-882 | a failed checkout leaves products, orders and streams as they were, unless the payment's ids are in use: then one unpaid order without ids is left and exactly its lines' stock is taken |
| Checkout.PreparedCart | src/orders/orders.service.ts:708-750 | the prepared total is the price of the whole stored cart plus the fee quoted, for its stream and the address on file |
| Checkout.PreparedCanCheckOut | src/orders/orders.service.ts:109-147 | a cart that passes the checks before payment can be turned into an order at once, its lines being for different things |
| Checkout.PaidAmountIsOrderTotal | src/orders/orders.service.ts:736-859 | if cart lines and their prices did not change in between, the order's total equals the prepared total, the sum of its lines plus the fee, to the paisa |
| OrdersService.OrdersService.ValidateCart | src/orders/orders.service.ts:113-148 | the first failing check, with the store changes of its two reads |
| OrdersService.OrdersService.PrepareForPayment | src/orders/orders.service.ts:708-750 | the totals to pay or the first failure, as a state change of the cart store only |
| OrdersService.OrdersService.CheckoutCart | src/orders/orders.service.ts:792-897 | order, payment marks and cart all change together on success; when the payment's ids are in use the order is committed unpaid with its stock taken and the cart stays; any other failure refreshes the cart store only |
| Payments.InvStep | src/payments/payments.service.ts:152-339 | every allowed step keeps payment and Razorpay ids unique over orders, a live session without an order, and failures apart from orders, with refund calls and failure rows one to one |
| Payments.ExactlyOnce | src/payments/payments.service.ts:222-339 | over every run with any retries: at most one order per payment id and per Razorpay order id, never both an order and a failure, at most one refund call per payment and none for a payment with an order |
| Payments.LandsInOne | src/payments/payments.service.ts:280-338 | a verified payment past the session checks ends as exactly one of paid order, refunded, refund failed, the refund and the failure row being for the session's amount, the caller and the Razorpay id |
| Payments.RetryIsIdempotent | src/payments/payments.service.ts:235-254 | verifying a landed payment again changes nothing and gives the same order, or the answer that belongs to its refund status |
| Payments.ChangesExactly | src/payments/payments.service.ts:222-288 | a verification changes anything if and only if it is signed, its payment has neither order nor failure, and a living session of the caller with address id and address belongs to its Razorpay id |
| Payments.PaidByItsOpener | src/payments/payments.service.ts:278-280 | over every run an order with a Razorpay id belongs to the buyer whose user opened that payment |
| Payments.LandingIsFinal | src/payments/payments.service.ts:235-254 | every later step keeps the order or failure a payment has landed in |
| Payments.ShopStepsKeepPayments | src/orders/orders.service.ts:1423-1877 | every other step of the shop keeps payment ids, as payment runs require |
| Payments.LostRowAllowsBoth | src/payments/payments.service.ts:132-149 | if the failure row is not written, a retry at any later time in the session, after any other steps of the shop, yields both an order and a refund once the cart is valid |
| Payments.OverlappingVerifyRefundsOrder | src/payments/payments.service.ts:235-338 | a verification that passed its checks before another one placed the order refunds the payment, and the order stands |
| PaymentRaces.ChecksThenSettles | src/payments/payments.service.ts:222-338 | checks and settlement one right after the other are the whole verification |
| PaymentRaces.OnceExactly | src/payments/payments.service.ts:235-338 | over every run with overlapping verifications and lost rows: no payment has both an order and a refund call nor two refund calls, if and only if every settlement acts on a payment with neither |
| PaymentRaces.OneOrderEach | prisma/schema.prisma:492-493 | over the same runs, unconditionally: each payment id and each Razorpay order id has at most one order |
| PaymentRaces.LeavesUnpaidExactly | src/payments/payments.service.ts:280-338 | a failed settlement leaves an unpaid order holding stock if and only if the cart could be checked out without the payment and one of its ids is in use; any other failure leaves the tables alone, and every failure sends one refund call |
| Payments.OpenedSession | src/payments/payments.service.ts:159-195 | the session stores the caller, the address, the prepared total in paise, at least one rupee, its fee, carrier and stream, for thirty minutes |
| Payments.PaidOrderMatchesSession | src/payments/payments.service.ts:181-295 | the order placed for a session costs, in paise, the session's amount when cart and prices did not change |
| PaymentsService.PaymentsService.OpenPayment | src/payments/payments.service.ts:152-195 | the payment is opened in place exactly as the step says; below one rupee nothing is opened |
| PaymentsService.PaymentsService.FindOrder | src/payments/payments.service.ts:235-240 | finds the first order of a payment, or the end of the table when there is none |
| PaymentsService.PaymentsService.VerifyPayment | src/payments/payments.service.ts:222-339 | session, order, refund and failure row change in place exactly as the step says, of which the rows above are proved |
| Replacements.StepMoves | src/replacements/replacements.service.ts:568-856 | each step adds one request or moves one along an arrow of its life, and keeps what it is about and what it costs |
| Replacements.InvStep | src/replacements/replacements.service.ts:167-856 | every allowed step keeps the safety invariant with its strengthening: a Razorpay id not yet paid means awaiting payment |
| Replacements.PaidBeforeFulfilment | src/replacements/replacements.service.ts:63-77 | in every reachable state an approved, packed, shipped or delivered request with a balance due is paid, and no order has two requests that are not rejected |
| Replacements.PricingExactly | src/replacements/replacements.service.ts:95-127 | a choice is priced if and only if it names an existing variant, or none where there are none; the balance is what it costs more than the line, never below zero |
| Replacements.CreateExactly | src/replacements/replacements.service.ts:167-251 | a request is accepted if and only if the line is replaceable and the choice priced; it records variant, label and both prices, and is approved at once exactly for a score of three and no dearer choice |
| Replacements.ChangesExactly | src/replacements/replacements.service.ts:167-856 | in every reachable state a call changes the requests if and only if it comes from the right party in the right condition: administrator, buyer with their own living session, or seller of a paid request |
| Replacements.OpenedBalance | src/payments/payments.service.ts:385-411 | opening asks for the balance due, to the nearest paisa, for thirty minutes |
| Replacements.ApprovedArrives | src/replacements/replacements.service.ts:631-827 | an approved request is delivered by its seller and the partner alone, whatever else happened before |
| Replacements.StatusFollowsArrows | src/replacements/replacements.service.ts:582-850 | no step takes a request backwards or past packing or shipping, and its order line, parties, variant and prices never change |
| ReplacementRaces.WholeCall | src/replacements/replacements.service.ts:167-856 | the separated test and write of each call, done one right after the other, are exactly the whole call |
| ReplacementRaces.PaidExactly | src/replacements/replacements.service.ts:649-850 | over every overlapping run, fulfilment is paid throughout if and only if no packing, shipping or delivery write lands on a request whose balance is due and unpaid |
| ReplacementRaces.OneOpenExactly | src/replacements/replacements.service.ts:193-236 | over every overlapping run, an order has at most one request not rejected throughout if and only if no write opens one while another is open |
| ReplacementRaces.ArrowsExactly | src/replacements/replacements.service.ts:582-850 | over every overlapping run statuses keep to the arrows throughout if and only if every write finds a status from which an arrow leads to the one it sets |
| ReplacementRaces.UniqueRun | prisma/schema.prisma:655-656 | in every overlapping run no two requests carry one payment id or one Razorpay id |
| ReplacementRaces.OnTimeRunsAreSafe | src/replacements/replacements.service.ts:193-850 | paid fulfilment, one open request and the arrows all hold if every new request finds no open one and every other write the status and balance its test saw |
| ReplacementRaces.TwoAtOnce | src/replacements/replacements.service.ts:193-236 | two submissions for one order that both passed their checks become two open requests |
| ReplacementRaces.LateApprovalUnpays | src/replacements/replacements.service.ts:582-667 | a run from any request under review: two approvals are tested, one lands, the balance is opened and paid, the second lands and makes it due again, and a packing tested before packs an unpaid replacement |
| ReplacementRaces.VerifiableExactly | src/payments/payments.service.ts:452-485 | while its session lives, a payment on a Razorpay id passes the checks if and only if that id is the stored one |
| ReplacementRaces.SecondIdReplaces | src/payments/payments.service.ts:365-411 | two openings that overlap leave the second id stored while the session of the first lives, and no payment on the first passes the checks |
| ReplacementRaces.ReplacedForGood | src/payments/payments.service.ts:402-461 | over every later run a replaced id never becomes the stored one again |
| Replacements.VerifyAgainIsIdempotent | src/payments/payments.service.ts:463-469 | a verified balance stays paid and verifying again changes nothing |
| Replacements.MovesOnExactly | src/payments/payments.service.ts:355-476 | a request awaiting payment can be moved on by some run of the calls the application makes if and only if its balance is unopened and rounds to a rupee or more, or its session is alive |
| Replacements.HalfHourBlocks | src/payments/payments.service.ts:365-411 | thirty minutes after an opening attempt without payment, any balance is blocked |
| Replacements.BlockedForever | src/payments/payments.service.ts:365-476 | a blocked request stays blocked in every run without the uncalled repair entry |
| Replacements.SubRupeeBlocks | src/replacements/replacements.service.ts:215-233 | an automatically approved request is blocked at once if and only if its price difference is positive and rounds to less than a rupee |
| Replacements.HalfRupeeIsBlocked | src/payments/payments.service.ts:385-388 | a reachable instance: a price that went from 10 to 10.50 rupees |
| ReplacementsService.ReplacementsService.FindOpen | src/replacements/replacements.service.ts:193-205 | finds a request of the order that is not rejected if and only if there is one |
| ReplacementsService.ReplacementsService.Create | src/replacements/replacements.service.ts:167-261 | the request is added in place exactly as the step says, of which `CreateExactly` is proved, or nothing changes; the invariant of all runs is kept |
| ReplacementsService.ReplacementsService.DecideRequest | src/replacements/replacements.service.ts:568-629 | only requests under review; a refusal rejects, an approval waits for the balance if one is due |
| ReplacementsService.ReplacementsService.OpenBalance | src/payments/payments.service.ts:341-411 | one Razorpay id a request; asking again returns it |
| ReplacementsService.ReplacementsService.VerifyBalance | src/payments/payments.service.ts:433-507 | request and session change together, once |
| ReplacementsService.ReplacementsService.MarkPaid | src/replacements/replacements.service.ts:411-433 | only a request awaiting payment changes |
| ReplacementsService.ReplacementsService.RecordPackingVideo | src/replacements/replacements.service.ts:631-674 | only approved, paid requests of the seller |
| ReplacementsService.ReplacementsService.RequestDeliveryFromPartner | src/replacements/replacements.service.ts:677-780 | only packed, paid requests with a waybill |
| ReplacementsService.ReplacementsService.GetDeliveryStatus | src/replacements/replacements.service.ts:782-827 | a delivered answer for a tracked parcel marks it delivered |
| ReplacementsService.ReplacementsService.DeliverByHand | src/replacements/replacements.service.ts:835-856 | only shipped requests of the seller |
| Csv.BuildCsv | src/reports/daily-users-report.service.ts:177-204 | the pushed lines joined make the printed table of header and user records |
| Csv.ParseRows | src/seller-emails/seller-email-csv.util.ts:4-54 | the indexed loop terminates and refines the recursive scanner, of which the rows below are proved |
| Csv.RoundTrip | src/seller-emails/seller-email-csv.util.ts:4-54 | for every table over every character, reading what was written returns exactly its rows with a non-empty cell |
| Csv.RoundTripExact | src/seller-emails/seller-email-csv.util.ts:38-54 | the table itself comes back if and only if no row is blank |
| Csv.AnyLineEnds | src/seller-emails/seller-email-csv.util.ts:39-54 | the same when each record ends in a line feed or in a carriage return and line feed, in any mixture, and when the last has no line end |
| Csv.CarriageReturnExactly | src/seller-emails/seller-email-csv.util.ts:47-50 | inserting a carriage return outside quotes leaves the rows as they are if and only if it does not part a closing quote from an opening one |
| Csv.NonBlankKeeps | src/seller-emails/seller-email-csv.util.ts:42 | the rows kept are exactly those with a cell that is not empty |
| Csv.ReportRoundTrip | src/reports/daily-users-report.service.ts:177-204 | the report of any users is read back whole, header included |
| Csv.ColumnsReadBack | src/reports/daily-users-report.service.ts:178-203 | read back, each user's id, email, phone, name, activity, roles and times stand under the header of that name |
| AddressSnapshot.ParseSnapshot | src/mail/templates/shipping-address.util.ts:2-60 | the line-by-line reading as a function of the text |
| AddressSnapshot.LinesReadBack | src/mail/templates/shipping-address.util.ts:16-19 | trimmed, non-empty lines are recovered from the stored text |
| AddressSnapshot.RoundTrip | src/orders/orders.service.ts:1935-1959 | for all addresses without line breaks: name, phone and street come back trimmed if and only if the name does not look like a phone and the phone does, or without a phone the street does not, and a name does not stand alone |
| AddressSnapshot.PhoneExactly | src/mail/templates/shipping-address.util.ts:57-60 | a text is taken for a phone if and only if eight to fifteen of its characters are digits |
| AddressSnapshot.StreetKeepsAll | src/orders/orders.service.ts:1948-1951 | the street line has all six parts of the address in their order |
| Words.AmountInWords | src/invoices/invoice-tax.util.ts:177-198 | the words of the nearest whole amount in rupees: read back they are within half a rupee of it, below one hundred crore |
| Words.RoundTrip | src/invoices/invoice-tax.util.ts:162-198 | an independent evaluator of the words gives back the amount below one hundred crore, and no number from there on |
| Words.Injective | src/invoices/invoice-tax.util.ts:177-198 | below one hundred crore no other amount has the same words |
| Words.HundredCroreCollides | src/invoices/invoice-tax.util.ts:162-167 | the bound is sharp |
| Money.RoundUnique | src/invoices/invoice-tax.util.ts:41-43 | the rounded amount is the only whole paisa within half a paisa, halves upwards |
| Invoices.SplitGst | src/invoices/invoice-tax.util.ts:93-121 | net is the whole paisa nearest to the amount without its tax at the rate given, or at 18 percent; net and taxes add up to the amount and the percents to the rate; halved into CGST and SGST, at most a paisa apart, if and only if both states are known and equal |
| Invoices.BuildOrderPage | src/invoices/invoices.service.ts:297-404 | net amounts plus total tax equal the grand total to the paisa, which is items plus delivery share, with one split line per item at its own rate and one for shipping at 18 percent |
| Invoices.GroupItemsBySeller | src/invoices/invoices.service.ts:212-223 | the groups partition the items: one a seller, in order, and their totals add up |
| Invoices.SharesNear | src/invoices/invoices.service.ts:106-115 | for every total the rounded shares of several sellers stay within half a paisa a page of the exact part of the fee, with the rupee floor in place |
| Invoices.BuildPages | src/invoices/invoices.service.ts:96-133 | page totals add up to items plus fee: exactly for one seller, within half a paisa a page for several; below one rupee the fee is scaled by the total in rupees |
| Invoices.AllShares | src/invoices/invoices.service.ts:106-115 | the shares add up to the fee for one seller; for several to within half a paisa a page of it from one rupee on, and below that to within as much of fee * total / 100 |
| Payout.DisplayedSum | src/pricing/seller-payout-calculator.ts:52-95 | gateway, logistics, commission and net make up the price, for any rates; shown, they add up to it within two paise unless the commission is negative, and then exceed it by that hidden amount within 1.5 paise |
| Payout.NetClosedForm | src/pricing/seller-payout-calculator.ts:52-66 | for any rates each fee carries its GST and commission is taken of what gateway and logistics leave |
| Payout.DefaultFees | src/pricing/seller-payout-calculator.ts:52-95 | with the default rates 2.36 percent of the price, 88.50 rupees and 5.9 percent of the rest unless waived; each is shown to the nearest paisa |
| Payout.NegativeCommission | src/pricing/seller-payout-calculator.ts:60-62 | with the default rates that happens if and only if commission is not waived and the price is at most 90.63 rupees |
| Payout.NetIncreases | src/pricing/seller-payout-calculator.ts:65-66 | net settlement is strictly increasing in price |

## Left out

- Interleaving inside one call, beyond what the runs separate: validating an order, committing it and writing its payment data are three steps, every other order and replacement call is a test and a write, a payment verification is its checks and its settlement; cart calls are taken apart in `CartRaces` and are one step each elsewhere, and so is a checkout inside a settlement up to its paid mark and the emptied cart (where two settlements overlap before the cart is emptied, the second needs no refilled cart to leave an unpaid order behind).
- OrderRuns.VariantsNeverOversold: each transaction is one serial step, as it would be under serializable isolation; the code sets no isolation level and reads a product before writing it.
- Infrastructure failures inside a call (database or key store throwing after an order was committed); only the failure row of a payment may fail to be written.
- Redis: each key family is a store of its own, the key is gone exactly at its expiry time, and the sweep's scan is any sequence of batches of keys.
- CartRule.CacheRefinesRule: covers streams that go live at once and end once, their hook running any time later or never, streams that are scheduled, started and stopped with their hook within the window of the planned start, and deletions. For all other rows the exact condition is `CartStamps.AlwaysFollowsExactly`. Legacy or unreadable entries are covered by the sweep results, which assume nothing of the stored carts.
- CartRaces.StaysAwayExactly: enforcement reads the stream row and saves in one step, and a save includes its index entry.
- CartService.CartService.Get: the products, prices and seconds shown with a cart are not part of its state here; pricing is in `Checkout.PriceAll`.
- Checkout.CheckoutLosesNothing: the delivery quote and the address on file are inputs, since they come from the carrier and the address table; the quote's own cart read repeats one already made.
- OrderRuns.Conservation: leaves out product deletion, edits that change a product's variant ids, and direct stock edits of variant products, for which the balance is not defined or not kept.
- OrderRuns.NeverNegativeExactly: the condition is tested at each commit, because whether another buyer commits in between is not up to the caller.
- Payments.ExactlyOnce: assumes fresh, non-empty provider ids, written failure rows and whole calls; `PaymentRaces.OnceExactly` gives the exact condition without rows and whole calls.
- OrdersService.OrdersService.RequestDeliveryFromPartner: the refusals before the carrier is asked (pickup address, phone, PIN codes, configuration) are not told apart; like a missing waybill they refuse and change nothing.
- ReplacementsService.ReplacementsService.RequestDeliveryFromPartner: the same refusals are not told apart here.
- ReplacementsService.ReplacementsService.Create: reason, description and photos are not recorded.
- Variants.EmitReadRoundTrip: JSON values are modelled by the fields the code reads; the runtime's text and number conversions are parameters fixed only on strings, numbers and missing values; inherited object properties and infinite numbers are not modelled.
- Invoices.BuildPages: item prices and the delivery fee are whole paise, and the state codes (looked up from GSTIN or PIN) are inputs; address, party and PDF building and the replacement invoice page are left out.
- Words.AmountInWords: amounts are not negative, as invoice totals are.
- Payout.DisplayedSum: the tax and information lines of the breakdown (TDS, TCS, GST credits) take no part in the sum and are left out.
- Floating point: money is whole paise or exact reals, so the epsilon in `roundInr` has no effect; adding hours or days ignores daylight saving.
- The header stage of `parseCsv` and the recipient list built from it, which would only add easy members.
- E-mails, notifications, ratings, listings and pagination, guards and DTO validation, seeds and scripts, stream and replay management beyond the life of a stream that carts see.
