# rtb-flash-sale auction core, modelled in Dafny

The system is a flash-sale auction. A product has a base price, a start and an end time, a number `k` of winners, and three scoring coefficients: alpha, beta and gamma. Each bid gets a score:

    alpha * price + beta / (1 + elapsed milliseconds) + gamma * weight

The score is rounded to four decimals. The top `k` scores win. The model follows the system in its own layers.

- **Backend, Go**
  - The bidding service places bids, builds the leaderboard and the results, and applies the configuration defaults.
  - The product service creates products and updates their status. It writes each product's configuration into a Redis hash.
  - Redis is modelled as a class `Redis.Store` with three maps per product: the configuration hash, the ranking sorted set (`RedisZSet`) and the bid-details hash.
  - Go's number formatting and parsing (`strconv`, `fmt`) is modelled where stored text is read back (`GoText`).
  - The WebSocket hub keeps one subscriber set per product, delivers into bounded per-client send queues and drops clients whose queue is full.
  - The client's read loop handles subscription switches. Its write loop drains the queue as newline-joined frames.
  - JWT claims become the user id and the username.
- **Front end, TypeScript**
  - The in-memory mock product service: its catalogue, generated rankings and results, the status tick, bids with leaderboard re-sorting, and product creation and update.
  - The mock WebSocket service, with its interval, its random reconnect and its bids.
  - The real WebSocket client: connection, subscription, status notifications and exponential reconnect back-off.
  - The page rules: the countdown texts, the bid form's checks, the registration form's password checks, the leaderboard's threshold and "(You)" marks, and the admin page's edit, create, status-cycle and save flow.
- **Load test**
  - The demo load test's user ramp (`tick`).
  - Its cache of each product's highest price.

Imperative code is modelled as classes whose methods name what they modify:

- the Redis store;
- the Go services;
- the hub;
- the front-end services;
- the page and form state.

Each such method is tied by its postcondition to a function of the old state, and the properties are proved about those functions. Pure logic is modelled as functions and lemmas. Clocks, randomness, parsed JSON and user input are parameters.

Module layout:

- `common.dfy`: status names, Option, min, max and rounding.
- `gotext.dfy`: Go number text.
- `zset.dfy`: sorted sets.
- `redis.dfy`: the store.
- `scoring.dfy`: the score formula.
- `bidding.dfy`: the bidding service.
- `product.dfy`: the product service.
- `flow.dfy`: lemmas linking product creation to bidding.
- `hub.dfy`: the hub and its clients.
- `mock_products.dfy`, `mock_socket.dfy`, `websocket_client.dfy`: the front-end services.
- `countdown.dfy`, `bid_form.dfy`, `register_page.dfy`, `ranking_table.dfy`, `admin_page.dfy`: the page rules.
- `load_shape.dfy`: the load test.

## Model

| member | source | states |
|---|---|---|
| Common.StatusFromName | backend/internal/models/products.go:8-12 | Only the three status names are recognised, and each recognised name is that status's own name. |
| Common.StatusNameRoundTrip | backend/internal/models/products.go:8-12 | Naming a status and reading the name back gives the same status. |
| Common.RoundHalfAway | backend/internal/bidding/service.go:46 | math.Round gives an integer within one half of its argument. |
| GoText.FormatNat | backend/internal/bidding/service.go:86 | The decimal text of a natural is non-empty and all digits, and starts with a non-zero digit from 10 up. |
| GoText.ParseFormatNat | backend/internal/bidding/helper.go:62-67 | Parsing the decimal text of a natural gives that natural back. |
| GoText.ParseNatBound | backend/internal/bidding/helper.go:62-67 | A digit string of length n parses to a value below 10^n. |
| GoText.ParseNatLeadingZeros | backend/internal/bidding/helper.go:62-67 | Leading zeros do not change the parsed value. |
| GoText.PadLeft | backend/internal/bidding/service.go:86 | Padding keeps the text as a suffix, fills only on the left and reaches the requested width. |
| GoText.FormatInt | backend/internal/bidding/service.go:86 | The decimal text of an integer is non-empty and starts with neither '+' nor '.'; ParseFormatInt gives its meaning. |
| GoText.ParseInt64 | backend/internal/bidding/helper.go:22-29 | strconv.ParseInt(s, 10, 64): a successful parse lies within int64; a failed one yields 0 or the clamped bound. |
| GoText.ParseFormatInt | backend/internal/bidding/helper.go:22-29 | Parsing the text of any int64 gives that integer back with success. |
| GoText.ParseUint32 | backend/internal/bidding/helper.go:71-76 | strconv.ParseUint(s, 10, 32) succeeds exactly for non-empty digit strings whose value fits in 32 bits. |
| GoText.Round6 | backend/internal/bidding/service.go:86 | Six-decimal rounding moves a value by at most half a millionth. |
| GoText.ParseFloat | backend/internal/bidding/helper.go:12-19 | strconv.ParseFloat on plain decimal text: a failed parse yields 0, the value the helpers then replace with their default (exponent, Inf and NaN text are left out). |
| GoText.ParseFloatPlain | backend/internal/bidding/helper.go:12-19 | Plain decimal text with an optional minus sign parses with success to its decimal value. |
| GoText.ParseFormatMicros | backend/internal/bidding/helper.go:62-67 | The fixed six-decimal text of a count of millionths parses back to that value. |
| GoText.ParseFormatFixed6 | backend/internal/bidding/helper.go:62-67 | Parsing the `%f` text of x gives x rounded to six decimals. |
| GoText.Split | backend/internal/bidding/helper.go:62 | strings.Split gives at least one part, and no part contains the separator. |
| GoText.SplitJoin | backend/internal/bidding/helper.go:62 | Splitting parts that were joined with a separator none of them contains gives the parts back. |
| GoText.JoinSnoc | backend/internal/websocket/client.go:132-139 | Joining with one more part adds the separator and that part at the end. |
| RedisZSet.ValidScoresNonIncreasing | backend/internal/bidding/helper.go:47 | In a well-formed sorted set, read from the highest, scores never increase. |
| RedisZSet.Remove | backend/internal/bidding/service.go:90-93 | Removing a member keeps the set well formed, removes exactly that member and keeps every other entry. |
| RedisZSet.Insert | backend/internal/bidding/service.go:90-93 | Inserting an absent member keeps the set ordered (score, then member) and adds exactly that entry. |
| RedisZSet.ZAdd | backend/internal/bidding/service.go:90-93 | ZADD leaves the member present exactly once with the new score, the set well formed, every other member unchanged, and the size grown by one only for a new member. |
| RedisZSet.ZRevRange | backend/internal/bidding/helper.go:47 | A ZREVRANGE window never holds more entries than the set; TopWindow and ZeroKWindowIsEverything state the index rules the leaderboard relies on. |
| RedisZSet.TopWindow | backend/internal/bidding/helper.go:47 | For k ≥ 1, ZREVRANGE 0..k−1 is the first min(k, size) entries from the top. |
| RedisZSet.WindowValid | backend/internal/bidding/helper.go:47 | Any window of a well-formed set is ordered and free of duplicates. |
| RedisZSet.ZeroKWindowIsEverything | backend/internal/bidding/helper.go:47 | With k = 0 the stop index −1 selects the whole set. |
| Redis.Store.Rank | backend/internal/bidding/helper.go:47 | Every product's ranking set, read through the store, is well formed. |
| Redis.Store.constructor | backend/internal/product/service.go:18-20 | A fresh store holds no hashes and no sets. |
| Redis.Store.SetConfigFields | backend/internal/product/service.go:41-51 | HSET overwrites exactly the given fields of one product's hash and leaves every other key alone. |
| Redis.Store.AddScore | backend/internal/bidding/service.go:90-93 | ZADD on one product's set, leaving the other products' sets and all hashes alone. |
| Redis.Store.SetBid | backend/internal/bidding/service.go:86-93 | HSET of one member's bid details, leaving everything else alone. |
| Scoring.Elapsed | backend/internal/bidding/service.go:40-44 | Elapsed milliseconds since the start are never negative: a bid before the start counts as zero elapsed. |
| Scoring.Round4 | backend/internal/bidding/service.go:46 | Rounding to four decimals moves the score by at most 0.00005 and gives a multiple of 0.0001. |
| Scoring.CalculateScore | backend/internal/bidding/service.go:39-47 | The stored score is within 0.00005 of alpha·price + beta/(1+t) + gamma·weight and has four decimals. |
| Scoring.TimeTermBounds | backend/internal/bidding/service.go:45 | The time term lies between 0 and beta, is positive when beta is, and equals beta at the start. |
| Scoring.TimeTermNonIncreasing | backend/internal/bidding/service.go:45 | With beta ≥ 0 the time term never grows as time passes. |
| Scoring.EarlierBidScoresAtLeastAsHigh | backend/internal/bidding/service.go:39-47 | With beta ≥ 0 and equal price and weight, an earlier bid scores at least as high as a later one. |
| Bidding.GetFloat | backend/internal/bidding/helper.go:12-19 | A missing or unparsable field gives the default; a parsable one gives exactly its parsed value. |
| Bidding.GetInt64 | backend/internal/bidding/helper.go:22-29 | A missing or unparsable field gives the default; a field that parses as an int64 gives exactly that integer. |
| Bidding.GetInt | backend/internal/bidding/helper.go:32-39 | Atoi on a 64-bit platform accepts what getInt64 accepts: the default for a missing or unparsable field, else exactly the parsed integer. |
| Bidding.GetInt64ReadsBack | backend/internal/product/service.go:41-51 | A field written as the text of an int64 reads back as that integer through both getInt64 and getInt. |
| Bidding.GetFloatReadsBack | backend/internal/product/service.go:41-51 | A field written as six-decimal text reads back as the value rounded to six decimals. |
| Bidding.DecodeDetails | backend/internal/bidding/helper.go:62-67 | Fewer than three fields decode to zeros. Otherwise fields 0, 1 and 2 give the price, reaction time and weight as parsed, a float that fails to parse giving 0; the reaction time is always an int64. |
| Bidding.DecodeEncodeDetails | backend/internal/bidding/service.go:86 | Decoding the stored "price,reactionTime,weight" text gives the reaction time exactly and the price and weight rounded to six decimals. |
| Bidding.PlaceBidOutcome | backend/internal/bidding/service.go:52-117 | An empty config means "not configured"; before the start time the bid is "not started"; a script reply of −1 means "closed"; otherwise the bid is accepted with its computed score, and only then. |
| Bidding.AcceptedBidReactionTime | backend/internal/bidding/service.go:73-79 | An accepted bid has a non-negative reaction time. |
| Bidding.DisplayName | backend/internal/bidding/helper.go:71-76 | A user id that is not a uint32 shows as "User_" followed by the id. |
| Bidding.DisplayNameOfRegisteredUser | backend/internal/bidding/helper.go:71-76 | A numeric id of a known user shows that user's username. |
| Bidding.RankingItems | backend/internal/bidding/helper.go:53-86 | One ranking item per entry of the window, in window order. |
| Bidding.RankingItemsShape | backend/internal/bidding/helper.go:53-86 | Over a well-formed window: ranks run 1..n, each item carries its entry's member and score, scores never increase, and user ids are distinct. |
| Bidding.RankingKAsWritten | backend/internal/bidding/service.go:128-135 | k is 5 unless the config holds a k. |
| Bidding.RankingK | backend/internal/bidding/service.go:128-135 | The corrected k is always at least 1: a stored k ≥ 1 is kept, and anything else gives 5. |
| Bidding.ThresholdAsWritten | backend/internal/bidding/service.go:150-156 | For k ≥ 1 the threshold is defined. |
| Bidding.ThresholdIsLowestListed | backend/internal/bidding/service.go:150-156 | The threshold is the last listed score (0 for an empty list) and no listed score is below it. |
| Bidding.ThresholdAsWrittenPanicsForNonPositiveK | backend/internal/bidding/service.go:151-153 | With k ≤ 0, `items[k-1]` is out of range whatever the items, even with none. |
| Bidding.StoredZeroK | backend/internal/bidding/service.go:128-135 | A stored k of "0" gives the whole leaderboard as the window, and the threshold index panics whether or not there are bids; the corrected k is 5. |
| Bidding.CorrectedWindowBounded | backend/internal/bidding/helper.go:47 | With the corrected k the window never holds more than k entries. |
| Bidding.HighestPrice | backend/internal/bidding/service.go:137-142 | A missing or unparsable currentHighestPrice reads as 0; a parsable one is its parsed value. |
| Bidding.StoredStatus | backend/internal/bidding/service.go:174-181 | A missing status reads as not_started. |
| Bidding.ToResult | backend/internal/bidding/service.go:199-209 | Every result item is flagged as a winner. |
| Bidding.Service.constructor | backend/internal/bidding/service.go:25-36 | The service holds the given store and user table. |
| Bidding.Service.PlaceBid | backend/internal/bidding/service.go:52-117 | The outcome is PlaceBidOutcome of the stored config. An accepted bid ZADDs the score and stores the details for this product only; a refused bid changes nothing. |
| Bidding.Service.RecordBid | backend/internal/bidding/service.go:82-93 | The script's writes: the score in the sorted set and the details in the bids hash, nothing else. |
| Bidding.Service.GetRawRankings | backend/internal/bidding/helper.go:42-89 | The items for ZREVRANGE 0..k−1: ranked 1..n, scores non-increasing, users distinct, at most k entries for k ≥ 1. |
| Bidding.Service.GetRankings | backend/internal/bidding/service.go:120-163 | The response lists the raw rankings for the corrected k (never more than k rows) and the stored highest price. The threshold is the last listed score (0 when empty) and bounds every listed score from below. |
| Bidding.Service.GetResults | backend/internal/bidding/service.go:166-212 | An error exactly when the stored status is not "ended". Otherwise every item of the raw rankings for the k parsed as written becomes a winner: at most k for k ≥ 1, and every bidder for k = 0. |
| Product.GeneratedID | backend/internal/product/service.go:25-27 | A generated id starts with "prod_" and has at least one more character. |
| Product.WithDefaults | backend/internal/product/service.go:25-31 | A missing id is generated and a missing status becomes not_started; nothing else changes. |
| Product.WithDefaultsIdempotent | backend/internal/product/service.go:25-31 | Applying the defaults twice changes nothing the first application did not. |
| Product.GormDefaults | backend/internal/models/products.go:29-31 | gorm's Create replaces a zero alpha, beta or gamma by 1.0, 0.5 or 0.3; no stored coefficient is zero, and non-zero ones and every other field are kept. |
| Product.StoredProductIdempotent | backend/internal/product/service.go:25-34 | Both sets of creation defaults, applied a second time, change nothing. |
| Product.ConfigHash | backend/internal/product/service.go:41-51 | The hash holds exactly the eight configuration fields with the given texts. |
| Product.ConfigRecord | backend/internal/product/service.go:41-51 | A product's configuration hash: its times and k as integers, its prices and coefficients as six-decimal text, its status, and no currentHighestPrice. |
| Product.Service.constructor | backend/internal/product/service.go:18-20 | The service holds the given store and database. |
| Product.Service.CreateProduct | backend/internal/product/service.go:23-54 | The saved product carries its own defaults and then gorm's coefficient defaults. A failed insert changes nothing. After a successful insert the row is stored; the config hash is written unless Redis fails, and then the error is returned with the row kept. No other product is touched. |
| Product.Service.UpdateStatus | backend/internal/product/service.go:67-76 | Without a database fault the row's status is set (when the row exists). The Redis hash's status is set unless Redis fails; a Redis failure returns an error with the row already changed. Other products are left alone. |
| AuctionFlow.ConfigReadsBack | backend/internal/bidding/service.go:64-68 | After creation the bidding service reads back the product's start time, k and status exactly, and its coefficients rounded to six decimals. |
| AuctionFlow.CreatedCoefficientsReadBack | backend/internal/product/service.go:34-51 | A coefficient created as zero is scored with its default, the same value the bidding service uses for a missing field; a non-zero one reads back to six decimals. |
| AuctionFlow.BidOnCreatedProduct | backend/internal/bidding/service.go:52-79 | A bid on a freshly created product is refused before its start time and otherwise depends only on the script's reply. |
| AuctionFlow.ResultsFollowStatusUpdate | backend/internal/bidding/service.go:174-181 | After a status update, results are available exactly when the new status is "ended". |
| WebSocketHub.Enter | backend/internal/websocket/hub.go:40-46 | Registering adds the client to its product's set, creating the set when needed, and changes no other product. |
| WebSocketHub.Leave | backend/internal/websocket/hub.go:49-60 | Leaving removes the client from its product's set and deletes a set that becomes empty, changing no other product. |
| WebSocketHub.Deliver | backend/internal/websocket/hub.go:91-103 | Delivery never adds or removes a client's queue. |
| WebSocketHub.DeliverSpec | backend/internal/websocket/hub.go:91-103 | A targeted client with room gets the message appended; a full client or one not targeted is unchanged. No queue grows past 256. |
| WebSocketHub.DeliverTwice | backend/internal/websocket/hub.go:66-75 | Delivering to two disjoint groups in turn is delivering to their union. |
| WebSocketHub.FullAfterDeliver | backend/internal/websocket/hub.go:66-75 | Delivering to other clients does not change which clients of a group are full. |
| WebSocketHub.OfferStep | backend/internal/websocket/hub.go:91-101 | One client's select: the message is queued when there is room, and the client is dropped when its queue is full. |
| WebSocketHub.FullUnion | backend/internal/websocket/hub.go:66-75 | The full clients of a union are the union of each group's full clients. |
| WebSocketHub.SubscribedInStep | backend/internal/websocket/hub.go:66-67 | Visiting one more product adds exactly its subscribers. |
| WebSocketHub.Thinned | backend/internal/websocket/hub.go:66-75 | Thinning the visited products keeps the set of product keys. |
| WebSocketHub.BroadcastStep | backend/internal/websocket/hub.go:63-76 | Processing one more product extends the delivered group, the dropped clients and the thinned map consistently. |
| WebSocketHub.SubscribeIsolation | backend/internal/websocket/client.go:87-103 | A switch moves only that client, from the old product's set to the new one. |
| WebSocketHub.ResubscribeIsNoChange | backend/internal/websocket/client.go:87-103 | Subscribing again to the product a client already follows leaves the subscriber map as it was. |
| WebSocketHub.OfferKeepsConsistent | backend/internal/websocket/hub.go:91-101 | A product broadcast to open clients keeps the hub's invariant (each subscriber's product is its set's key, queues stay bounded), and keeps every subscriber open. |
| WebSocketHub.SubscribeKeepsConsistent | backend/internal/websocket/client.go:87-103 | A subscription switch keeps the same invariant for any client, open or closed; the subscribers stay open when the switching client's channel is open. |
| WebSocketHub.AfterBroadcast | backend/internal/websocket/hub.go:91-103 | After BroadcastToProduct the product keeps exactly its non-full clients, its key goes exactly when dropping emptied it, and other products are unchanged. |
| WebSocketHub.DroppedClientResubscribes | backend/internal/websocket/client.go:92-103 | As written, a client dropped for a full queue is closed and out of its set, yet a subscribe read afterwards puts it, closed, into the new product's set, so the next broadcast there panics. |
| WebSocketHub.Hub.constructor | backend/internal/websocket/hub.go:27-34 | NewHub: no subscribers, no clients. |
| WebSocketHub.Hub.AtMostOneProduct | backend/internal/websocket/client.go:87-103 | A client is in at most one product's subscriber set. |
| WebSocketHub.Hub.NewClient | backend/internal/websocket/client.go:207-214 | A new client has product "" and an empty send queue. |
| WebSocketHub.Hub.Register | backend/internal/websocket/hub.go:40-46 | The register case adds the client to its current product's set; it keeps the subscribers open when the client is open. |
| WebSocketHub.Hub.Unregister | backend/internal/websocket/hub.go:49-60 | The unregister case: a subscribed client is removed and its channel closed; closing an already closed channel panics; any other client changes nothing. |
| WebSocketHub.Hub.HandleMessage | backend/internal/websocket/client.go:80-107 | A subscribe or subscribe_rankings message with a product id moves the client to that product, even a client the hub has closed, after which a broadcast to that product panics; malformed or other messages change nothing. |
| WebSocketHub.Hub.HandleMessageCorrected | backend/internal/websocket/client.go:87-106 | Corrected: a closed client is not subscribed again, so the subscribers stay open and no broadcast sends on a closed channel. |
| WebSocketHub.Hub.Offer | backend/internal/websocket/hub.go:91-103 | One product's delivery to open clients: those with room get the message, full ones are closed and removed. |
| WebSocketHub.Hub.BroadcastToProduct | backend/internal/websocket/hub.go:82-104 | No set for the product changes nothing. A closed client in the set panics. Otherwise it is Offer, and the product's key is deleted when its set empties. |
| WebSocketHub.Hub.BroadcastAll | backend/internal/websocket/hub.go:63-76 | A closed subscriber anywhere panics. Otherwise the broadcast case delivers to every subscriber of every product, closes exactly the full ones and thins each set. |
| WebSocketHub.Hub.BroadcastRound | backend/internal/websocket/hub.go:66-75 | One product's round of the broadcast loop keeps the loop invariant. |
| WebSocketHub.Hub.WritePump | backend/internal/websocket/client.go:119-143 | A non-empty queue is sent as one frame of the messages joined by newlines and is emptied; an empty queue of a closed client sends the close frame. |
| WebSocketHub.FrameSplitsBack | backend/internal/websocket/client.go:132-139 | A frame splits back at the newlines into the queued messages. |
| WebSocketHub.RoundHalfEven | backend/internal/websocket/client.go:186 | `%.0f` gives the nearest integer, and the even one on a tie. |
| WebSocketHub.UserIDFromClaim | backend/internal/websocket/client.go:183-192 | A string sub is the user id; a number sub is its rounded text; anything else is rejected. |
| WebSocketHub.Identity | backend/internal/websocket/client.go:183-198 | The connection is accepted exactly when sub is a string or a number and username is a string. |
| WebSocketHub.NumericSubRoundTrip | backend/internal/websocket/client.go:186 | A whole-number sub becomes its decimal text, which parses back to the same uint32 for the leaderboard's name lookup. |
| MockProducts.FindIndex | frontend/src/services/mockProductService.ts:194 | findIndex: absent exactly when no product has the id; otherwise the first product with it. |
| MockProducts.BasePriceFor | frontend/src/services/mockProductService.ts:81 | `find(...)?.basePrice \|\| 1000`: an unknown product or a zero base price gives 1000, so the result is never 0. |
| MockProducts.BasePriceForSameIds | frontend/src/services/mockProductService.ts:81 | The looked-up price depends only on the first product with the id. |
| MockProducts.MockRanking | frontend/src/services/mockProductService.ts:83-97 | The i-th generated row has rank i+1, the id user_{product}_{i+1}, and score price·weight − reactionTime. |
| MockProducts.MockResult | frontend/src/services/mockProductService.ts:106-118 | The i-th generated result has rank i+1 and is a winner. |
| MockProducts.MockRankings | frontend/src/services/mockProductService.ts:79-100 | k rows, none for k ≤ 0. |
| MockProducts.MockResults | frontend/src/services/mockProductService.ts:102-120 | k results, none for k ≤ 0. |
| MockProducts.UserIdsDiffer | frontend/src/services/mockProductService.ts:91 | Different row numbers give different user ids. |
| MockProducts.MockRankingsShape | frontend/src/services/mockProductService.ts:83-97 | Every generated row i has rank i+1 and the score price·weight − reactionTime of its own fields. |
| MockProducts.MockRankingsDistinct | frontend/src/services/mockProductService.ts:91 | Generated rows have distinct user ids. |
| MockProducts.MockResultsMatchRankings | frontend/src/services/mockProductService.ts:102-120 | The generated results agree row by row with the generated rankings: rank, user, name, price and score. |
| MockProducts.Tick | frontend/src/services/mockProductService.ts:124-132 | A tick changes only the status. |
| MockProducts.TickSteps | frontend/src/services/mockProductService.ts:125-128 | A tick moves a status at most one step forward: to active exactly when the start time has come, to ended exactly when the end time has come. Ended stays ended. |
| MockProducts.TickResultsStep | frontend/src/services/mockProductService.ts:129-131 | One product's tick adds its results exactly when it ends and has none yet. |
| MockProducts.TickResultsSpec | frontend/src/services/mockProductService.ts:122-134 | Existing results are kept. New results appear only for products that end in this tick, and every such product gets some. |
| MockProducts.FindUser | frontend/src/services/mockProductService.ts:229 | find by user id: absent exactly when no row has it. |
| MockProducts.LastFour | frontend/src/services/mockProductService.ts:243 | slice(−4): the last four characters, or the whole of a shorter id. |
| MockProducts.UpsertSpec | frontend/src/services/mockProductService.ts:228-249 | A known user's row is updated in place; a new user is appended as one more row. |
| MockProducts.UpsertKnown | frontend/src/services/mockProductService.ts:231-233 | A known user's row gets the new price and the score recomputed with its own weight and reaction time; other rows are untouched. |
| MockProducts.UpsertNew | frontend/src/services/mockProductService.ts:235-248 | A new user's row has weight 1.2, the given reaction time, rank length+1 and the masked display name. |
| MockProducts.InsertByScore | frontend/src/services/mockProductService.ts:252 | Inserting adds exactly one row. |
| MockProducts.InsertByScoreCounts | frontend/src/services/mockProductService.ts:252 | Insertion is a permutation of the old rows plus the new one. |
| MockProducts.InsertByScoreSorted | frontend/src/services/mockProductService.ts:252 | Insertion into a list sorted by descending score keeps it sorted. |
| MockProducts.SortByScore | frontend/src/services/mockProductService.ts:252 | sort((a, b) => b.score − a.score) returns a permutation sorted by descending score. |
| MockProducts.SortKeepsDistinct | frontend/src/services/mockProductService.ts:252 | Sorting keeps user ids distinct. |
| MockProducts.InsertKeepsDistinct | frontend/src/services/mockProductService.ts:252 | Inserting a row with a new user keeps user ids distinct. |
| MockProducts.InsertMembers | frontend/src/services/mockProductService.ts:252 | The inserted list holds exactly the old rows and the new one. |
| MockProducts.Reranked | frontend/src/services/mockProductService.ts:253-255 | Re-ranking keeps the length. |
| MockProducts.SliceTo | frontend/src/services/mockProductService.ts:258 | slice(0, k) is the first min(k, n) rows; a negative k drops |k| rows from the end. |
| MockProducts.RerankedPrefix | frontend/src/services/mockProductService.ts:253-258 | After re-ranking and slicing, row i has rank i+1 and is otherwise the sorted row i. |
| MockProducts.BidRankingsOrder | frontend/src/services/mockProductService.ts:251-259 | The leaderboard after a bid is sorted by descending score and ranked 1..n. |
| MockProducts.BidRankingsEntries | frontend/src/services/mockProductService.ts:228-259 | The leaderboard after a bid is the top of a permutation of the upserted rows; with k ≥ the row count no row is lost. |
| MockProducts.CheckBid | frontend/src/services/mockProductService.ts:209-220 | Bids on unknown products, on products that are not active, and below the base price are refused, in that order; otherwise the bid is accepted. Each case is an if-and-only-if. |
| MockProducts.RaiseHighest | frontend/src/services/mockProductService.ts:223-225 | The highest price becomes the larger of the old one and the bid; nothing else changes. |
| MockProducts.RaiseAllIsMaximum | frontend/src/services/mockProductService.ts:223-225 | After any sequence of bids the highest price is the maximum of the initial price and all bids. |
| MockProducts.MockRankingsNotByScore | frontend/src/services/mockProductService.ts:84-87 | The generated leaderboard is not in score order: for k = 5 and base 1000, rank 5 outscores rank 1. |
| MockProducts.CreatedStatusSpec | frontend/src/services/mockProductService.ts:183 | A new product is not started before its start time, active from the start until the end, and ended from both. |
| MockProducts.NewProductRecord | frontend/src/services/mockProductService.ts:178-185 | A new product's id is "product_" + the clock, and its highest price is its base price. |
| MockProducts.NewProductRecordSpec | frontend/src/services/mockProductService.ts:180-185 | A new product keeps every input field, and a tick at the same instant leaves it as created. |
| MockProducts.BasePriceForAppended | frontend/src/services/mockProductService.ts:187-188 | After appending, the lookup finds the appended product unless an earlier one has the same id. |
| MockProducts.ApplyPatchLaws | frontend/src/services/mockProductService.ts:197 | `{...p, ...u}`: the empty patch is the identity, a patch is idempotent, and two patches in turn are their merge. |
| MockProducts.StatusPatchOnlyStatus | frontend/src/services/mockProductService.ts:201-203 | A status update changes the status and nothing else. |
| MockProducts.MockCatalog | frontend/src/services/mockProductService.ts:19-62 | The seed catalogue has three products. |
| MockProducts.SeedRankingsDistinct | frontend/src/services/mockProductService.ts:65-70 | Every seeded leaderboard has distinct users. |
| MockProducts.SeededCatalog | frontend/src/services/mockProductService.ts:65-70 | Products 1, 2 and 3 are seeded with 5, 3 and 10 generated rows at their own base prices, and only the ended product 3 gets results. |
| MockProducts.CatalogPrices | frontend/src/services/mockProductService.ts:19-62 | Each seed product is found under its own id, so the generators see base prices 1000, 2000 and 500. |
| MockProducts.Rerank | frontend/src/services/mockProductService.ts:253-255 | The forEach loop sets rank i+1 on row i. |
| MockProducts.RankTopK | frontend/src/services/mockProductService.ts:228-259 | The leaderboard update of a bid: upsert, sort, re-rank and slice. |
| MockProducts.BidRankingsDistinct | frontend/src/services/mockProductService.ts:251-259 | Starting from distinct users, the leaderboard after a bid still has distinct users. |
| MockProducts.Ticked | frontend/src/services/mockProductService.ts:124-133 | Ticking every product keeps the list length. |
| MockProducts.TickedPrefixStep | frontend/src/services/mockProductService.ts:124-133 | Ticking product i extends the ticked prefix by one. |
| MockProducts.BasePriceForPartlyTicked | frontend/src/services/mockProductService.ts:129-131 | During the status loop, results are generated with the same base price as before the tick. |
| MockProducts.Service.GetProductById | frontend/src/services/mockProductService.ts:166-168 | Undefined exactly when no product has the id; otherwise a listed product with it. |
| MockProducts.Service.GetProductRankings | frontend/src/services/mockProductService.ts:170-172 | The stored leaderboard, or [] when there is none. |
| MockProducts.Service.GetProductResults | frontend/src/services/mockProductService.ts:174-176 | The stored results, or [] when there are none. |
| MockProducts.Service.constructor | frontend/src/services/mockProductService.ts:9-11 | The service starts with the catalogue and its seeded rankings and results. |
| MockProducts.Service.SeedAll | frontend/src/services/mockProductService.ts:65-70 | The forEach seeds every product's rankings and the ended products' results. |
| MockProducts.Service.GenerateMockRankings | frontend/src/services/mockProductService.ts:79-100 | The loop builds the k generated rows with the looked-up base price. |
| MockProducts.Service.GenerateMockResults | frontend/src/services/mockProductService.ts:102-120 | The loop builds the k generated results. |
| MockProducts.Service.UpdateProductStatuses | frontend/src/services/mockProductService.ts:122-134 | Every product is ticked; results appear for products that end; rankings are untouched. |
| MockProducts.Service.PlaceBid | frontend/src/services/mockProductService.ts:206-260 | The outcome is CheckBid. A refused bid changes nothing. An accepted one raises the highest price and replaces the leaderboard with the re-sorted top k. |
| MockProducts.Service.CreateProduct | frontend/src/services/mockProductService.ts:178-191 | The new record is appended and its generated rankings stored. |
| MockProducts.Service.UpdateProduct | frontend/src/services/mockProductService.ts:193-199 | An unknown id gives null and changes nothing; otherwise the first product with the id is patched. |
| MockProducts.Service.UpdateProductStatus | frontend/src/services/mockProductService.ts:201-203 | updateProduct with only the status. |
| MockSocket.FixedRanking | frontend/src/services/mockWebSocket.ts:42-58 | Row i has rank i+1, the id user_{i+1} and score price·weight − reactionTime. |
| MockSocket.FixedRankings | frontend/src/services/mockWebSocket.ts:42-61 | Always five rows. |
| MockSocket.FixedRankingsShape | frontend/src/services/mockWebSocket.ts:42-61 | The five rows are ranked 1..5, each scored price·weight − reactionTime, with distinct user ids. |
| MockSocket.IntervalStepSpec | frontend/src/services/mockWebSocket.ts:72-89 | A positive price change raises the highest price by that much and regenerates the rows. The auction ends, and its end time is cleared, exactly when a non-zero end time has passed. |
| MockSocket.IntervalRunSpec | frontend/src/services/mockWebSocket.ts:72-89 | Over any run of ticks an ended auction (end time cleared) stays ended, and with non-negative changes the highest price never falls. |
| MockSocket.ZeroEndTimeNeverEnds | frontend/src/services/mockWebSocket.ts:83 | An end time of 0 is falsy, so such an auction never ends. |
| MockSocket.CheckBid | frontend/src/services/mockWebSocket.ts:135-141 | A bid is refused when the auction is not active, refused below the base price, and otherwise accepted. Each case is an if-and-only-if. |
| MockSocket.AfterBid | frontend/src/services/mockWebSocket.ts:144-150 | The highest price becomes the larger of the old one and the bid, the rows are regenerated, and nothing else changes. |
| MockSocket.AfterBidIdempotent | frontend/src/services/mockWebSocket.ts:143-150 | Repeating a bid is accepted exactly as the first was and changes nothing more. |
| MockSocket.Service.constructor | frontend/src/services/mockWebSocket.ts:28-40 | The initial auction data, disconnected, with no callbacks and no timers. |
| MockSocket.Service.GenerateMockRankings | frontend/src/services/mockWebSocket.ts:42-61 | The loop builds the five fixed rows. |
| MockSocket.Service.PushUpdate | frontend/src/services/mockWebSocket.ts:69 | `updateCallback?.(data)`: the data is delivered only when a callback is set. |
| MockSocket.Service.SetStatus | frontend/src/services/mockWebSocket.ts:65-66 | Status set and reported to the callback, when there is one. |
| MockSocket.Service.OnUpdate | frontend/src/services/mockWebSocket.ts:122-124 | The update callback is set. |
| MockSocket.Service.OnStatusChange | frontend/src/services/mockWebSocket.ts:126-128 | The status callback is set. |
| MockSocket.Service.Connect | frontend/src/services/mockWebSocket.ts:63-97 | Connected and reported, the data pushed once, one more interval started (the id overwrites any earlier one), and one reconnect check scheduled. |
| MockSocket.Service.IntervalFires | frontend/src/services/mockWebSocket.ts:72-89 | The interval callback applies one IntervalStep and pushes the data. |
| MockSocket.Service.ReconnectCheckFires | frontend/src/services/mockWebSocket.ts:92-96 | The ten-second check simulates a reconnect exactly when the random draw says so. |
| MockSocket.Service.SimulateReconnect | frontend/src/services/mockWebSocket.ts:99-107 | The service goes to reconnecting and reports it, and one more reconnect timer runs with its id held; an earlier timer keeps running with its id overwritten. |
| MockSocket.Service.ReconnectTimerFires | frontend/src/services/mockWebSocket.ts:103-106 | Either the held timer or an overwritten one fires: one timer fewer, back to connected, and reported. |
| MockSocket.Service.Disconnect | frontend/src/services/mockWebSocket.ts:109-120 | Only the held interval and the held reconnect timer are cleared; overwritten reconnect timers keep running. The service goes to disconnected and reports it. |
| MockSocket.Service.PlaceBid | frontend/src/services/mockWebSocket.ts:131-154 | The outcome is CheckBid. A refusal changes nothing; an accepted bid applies AfterBid and pushes the data. |
| MockSocket.Service.GetCurrentData | frontend/src/services/mockWebSocket.ts:156-158 | A copy of the current data. |
| MockSocket.DoubleConnectLeaksInterval | frontend/src/services/mockWebSocket.ts:72 | After two connects and a disconnect, one interval is still running, and the service no longer holds its id. |
| MockSocket.DisconnectedServiceReconnects | frontend/src/services/mockWebSocket.ts:92-96 | A reconnect check still pending after disconnect takes a disconnected service to reconnecting and then connected. |
| MockSocket.DoubleReconnectOrphansTimer | frontend/src/services/mockWebSocket.ts:99-120 | Two reconnects in a row, then disconnect: the first timer, its id overwritten, still reports connected after disconnected. |
| WebSocketClient.Pow2 | frontend/src/services/websocketService.ts:99 | Powers of two are at least 1. |
| WebSocketClient.BackoffDelay | frontend/src/services/websocketService.ts:99 | The n-th retry waits at least the base delay of 1000 ms. |
| WebSocketClient.BackoffDoubles | frontend/src/services/websocketService.ts:97-99 | Each retry waits twice as long as the previous one, from 1000 ms for the first to 16000 ms for the fifth. |
| WebSocketClient.NormalizeToken | frontend/src/services/websocketService.ts:31-43 | `user.token \|\| null`: only a truthy token is kept. |
| WebSocketClient.NotifiedOnlyChanges | frontend/src/services/websocketService.ts:143-150 | The callback hears only real changes: no report repeats the status before it. |
| WebSocketClient.Hear | frontend/src/services/websocketService.ts:143-150 | setStatus reports the new status exactly when it differs and a callback is set. |
| WebSocketClient.HearTwice | frontend/src/services/websocketService.ts:143-150 | Two status changes in turn report the same as the notified sequence of both. |
| WebSocketClient.CloseSocket | frontend/src/services/websocketService.ts:158-161 | ws.close() moves an opening or open socket to closing and changes no other socket. |
| WebSocketClient.CloseCurrent | frontend/src/services/websocketService.ts:158-161 | Closing the current socket, when there is one, changes only the sockets. |
| WebSocketClient.OpenNew | frontend/src/services/websocketService.ts:66 | `new WebSocket(url)` adds one opening socket for the product under a fresh number. |
| WebSocketClient.OpenNewNumbered | frontend/src/services/websocketService.ts:66 | Socket numbers stay fresh. |
| WebSocketClient.Service.constructor | frontend/src/services/websocketService.ts:26-29 | Disconnected, with no socket, no product, no timer and the normalised stored token. |
| WebSocketClient.Service.OnStatusChange | frontend/src/services/websocketService.ts:171-173 | The status callback is set. |
| WebSocketClient.Service.OnMessageHook | frontend/src/services/websocketService.ts:167-169 | The message callback is set. |
| WebSocketClient.Service.GetStatus | frontend/src/services/websocketService.ts:175-177 | The current status. |
| WebSocketClient.Service.SetStatus | frontend/src/services/websocketService.ts:143-150 | The status is set, and a change is reported to the callback. |
| WebSocketClient.Service.Disconnect | frontend/src/services/websocketService.ts:152-165 | The timer is cleared, the socket closed and dropped, and the product cleared; the client is disconnected. |
| WebSocketClient.Service.OpenSocket | frontend/src/services/websocketService.ts:61-66 | The client is connecting with a fresh opening socket. |
| WebSocketClient.Service.ConnectWith | frontend/src/services/websocketService.ts:45-66 | An open socket for the same product means nothing changes. Otherwise the client disconnects and sets the product; with no token it goes to error, else it opens a new socket. |
| WebSocketClient.Service.Connect | frontend/src/services/websocketService.ts:45-66 | connect as written: the attempt counter is reset on every call. |
| WebSocketClient.Service.SubscribeTo | frontend/src/services/websocketService.ts:115-135 | Through an open current socket it sends subscribe and then subscribe_rankings for the product; otherwise it sends nothing. |
| WebSocketClient.Service.OnOpen | frontend/src/services/websocketService.ts:68-75 | The client is connected, the attempt counter is reset, the socket is open and the product is subscribed. |
| WebSocketClient.Service.OnMessage | frontend/src/services/websocketService.ts:77-84 | A parsed message reaches the callback when one is set; a malformed one is dropped. |
| WebSocketClient.Service.OnError | frontend/src/services/websocketService.ts:86-89 | The status becomes error. |
| WebSocketClient.Service.OnClose | frontend/src/services/websocketService.ts:91-108 | Disconnected and the socket dropped. With a product and fewer than five attempts, it counts one more attempt and schedules a retry after the back-off delay. |
| WebSocketClient.Service.ReconnectFires | frontend/src/services/websocketService.ts:102-106 | The timer reconnects to the current product, if any, through connect. |
| WebSocketClient.Service.ReconnectFiresCorrected | frontend/src/services/websocketService.ts:102-106 | The corrected retry keeps the attempt counter. |
| WebSocketClient.Service.OnCloseCorrected | frontend/src/services/websocketService.ts:91-108 | A close event from a socket that is no longer current changes nothing; the current socket's close behaves as OnClose. |
| WebSocketClient.ReconnectsAsWritten | frontend/src/services/websocketService.ts:62 | After any number n of failed reconnects the client has retried n times, every time after 1000 ms, and never gives up. |
| WebSocketClient.ReconnectsCorrected | frontend/src/services/websocketService.ts:97-106 | Corrected: at most five retries, with delays 1000, 2000, 4000, 8000 and 16000 ms. |
| WebSocketClient.SwitchProductAsWritten | frontend/src/services/websocketService.ts:91-95 | Switching from product a to b: the old socket's close drops the new socket and schedules a reconnect. |
| WebSocketClient.SwitchProductCorrected | frontend/src/services/websocketService.ts:91-108 | Corrected: the switch keeps the new socket, subscribes to b, and leaves no timer. |
| Countdown.Clock | frontend/src/pages/ProductLobbyPage.tsx:69-71 | mm:ss text: digits, a colon and two digits of seconds. |
| Countdown.PaddedDigits | frontend/src/pages/ProductLobbyPage.tsx:71 | padStart(2, '0') of a number's text is digits that read back as the number. |
| Countdown.TwoDigits | frontend/src/pages/ProductLobbyPage.tsx:71 | A number below 100 has at most two digits. |
| Countdown.ClockFields | frontend/src/pages/ProductLobbyPage.tsx:69-70 | The seconds field is below 60, and minutes and seconds account for the remaining time to within one second. |
| Countdown.ClockReadsBack | frontend/src/pages/ProductLobbyPage.tsx:69-71 | The mm:ss text reads back as the whole minutes and seconds remaining. |
| Countdown.ReadJoined | frontend/src/pages/ProductLobbyPage.tsx:71 | Digits joined by a colon read back as the two numbers. |
| Countdown.ClockNamesTime | frontend/src/pages/ProductLobbyPage.tsx:69-71 | The text names a time within one second below the remaining time. |
| Countdown.SplitAtColon | frontend/src/pages/ProductLobbyPage.tsx:71 | The minutes and seconds can be cut back out of the text. |
| Countdown.ClockOfZero | frontend/src/components/ProductCard.tsx:33 | No time left reads 00:00. |
| Countdown.StatusText | frontend/src/pages/ProductLobbyPage.tsx:18-29 | An unknown status reads 未知, and only an unknown one does. |
| Countdown.StatusTextDistinguishes | frontend/src/pages/ProductLobbyPage.tsx:18-29 | Different statuses have different labels. |
| ProductLobbyPage.LobbyCountdown | frontend/src/pages/ProductLobbyPage.tsx:47-72 | Before the start the timer counts down to it; while active it counts down to the end; otherwise it reads 已結束, exactly then. |
| ProductLobbyPage.EndedLabelsAgree | frontend/src/pages/ProductLobbyPage.tsx:18-29 | An ended product's timer and its status label agree. |
| ProductInfo.InfoMatchesLobby | frontend/src/components/ProductInfo.tsx:11-38 | The product panel's timer shows exactly what the lobby's shows. |
| ProductCard.Card | frontend/src/components/ProductCard.tsx:22-46 | The ended banner shows exactly for an ended product. --:-- shows exactly when there is no end time, a zero end time, or the product is not active. |
| ProductCard.CardIsLobbyWithoutPrefix | frontend/src/components/ProductCard.tsx:22-46 | An active card shows the lobby's mm:ss without the prefix, and 00:00 once time is up. |
| BidForm.Validate | frontend/src/components/BidForm.tsx:28-38 | A missing or non-positive amount is invalid; a positive one below the base price is too low; anything else, the base price included, passes. Each case is an if-and-only-if. |
| BidForm.FormPassesOnlyAcceptedPrices | frontend/src/components/BidForm.tsx:28-38 | Every price the form passes for an active product is accepted by the mock service, and every price refused there as too low is stopped by the form. |
| BidForm.Form.constructor | frontend/src/components/BidForm.tsx:24-50 | Empty input, not loading, no message. |
| BidForm.Form.Disabled | frontend/src/components/BidForm.tsx:52 | Enabled only for an active product with no bid in flight. |
| BidForm.Form.Type | frontend/src/components/BidForm.tsx:24-50 | The input takes the typed text. |
| BidForm.Form.Submit | frontend/src/components/BidForm.tsx:24-42 | A rejected price shows its message and calls nothing. An accepted one is handed on and disables the form. |
| BidForm.Form.Settle | frontend/src/components/BidForm.tsx:43-48 | Success shows the price and clears the input; a failure shows the error or 出價失敗; loading ends either way. |
| RegisterPage.PasswordCheck | frontend/src/pages/register.tsx:23-31 | The checks pass exactly when the passwords match and have at least six characters. |
| RegisterPage.MismatchWins | frontend/src/pages/register.tsx:23-31 | A mismatch is reported before the length; the length message only for a matching pair that is too short. |
| RegisterPage.Form.constructor | frontend/src/pages/register.tsx:17-47 | No error, no success, not loading. |
| RegisterPage.Form.Submit | frontend/src/pages/register.tsx:17-36 | register is called exactly when the checks pass. A failed check shows its message without loading. |
| RegisterPage.Form.Settle | frontend/src/pages/register.tsx:36-45 | Success is shown, or the error (註冊失敗 by default); loading ends either way. |
| RankingTable.ThresholdAsWritten | frontend/src/components/RankingTable.tsx:29 | A score exactly when 1 ≤ k ≤ the row count, and then it is row k's score. |
| RankingTable.ThresholdAsWrittenUndefinedForNonPositiveK | frontend/src/components/RankingTable.tsx:29 | With k ≤ 0 the value is undefined, not null, so the threshold line is drawn. |
| RankingTable.Threshold | frontend/src/components/RankingTable.tsx:36-41 | Corrected: row k's score when 1 ≤ k ≤ the row count, and nothing otherwise. |
| RankingTable.ThresholdAgreesWhereDefined | frontend/src/components/RankingTable.tsx:29 | For k ≥ 1 the corrected and written thresholds agree; for k ≤ 0 the corrected one shows nothing. |
| RankingTable.ThresholdAgainstServer | frontend/src/components/RankingTable.tsx:29 | With at least k rows the panel's threshold is the server's. With fewer, the server reports the last score (or 0) while the panel shows none. |
| RankingTable.YouMarks | frontend/src/components/RankingTable.tsx:69-79 | A row is marked (You) exactly when its user is the signed-in user. |
| RankingTable.AtMostOneYou | frontend/src/components/RankingTable.tsx:69-79 | With distinct users at most one row is marked, and none when nobody is signed in. |
| RankingTable.ShowsNotice | frontend/src/components/RankingTable.tsx:100 | The notice shows exactly for a known rank greater than k. |
| RankingTable.NoNoticeInsideTopK | frontend/src/components/RankingTable.tsx:100 | A user within the top k, or without a rank, sees no notice. |
| AdminProductPage.NextStatus | frontend/src/pages/AdminProductPage.tsx:117-124 | The status change always moves to a different status. |
| AdminProductPage.NextStatusCycle | frontend/src/pages/AdminProductPage.tsx:117-124 | Three changes cycle back, passing through all three statuses. |
| AdminProductPage.OrDefault | frontend/src/pages/AdminProductPage.tsx:54-56 | `x \|\| d`: a missing or zero coefficient takes the default. |
| AdminProductPage.FieldTimeAsWrittenShifts | frontend/src/pages/AdminProductPage.tsx:86-87 | As written, a filled time is read back shifted by the time-zone offset, so any non-zero offset changes a whole-minute time. |
| AdminProductPage.FieldTimeRoundTrip | frontend/src/pages/AdminProductPage.tsx:52-53 | Corrected: filling a field and reading it back as UTC loses only the seconds, so a whole-minute time returns unchanged. |
| AdminProductPage.FormOf | frontend/src/pages/AdminProductPage.tsx:43-59 | The form takes the product's fields, its times as minutes, its defaulted coefficients and the given status. |
| AdminProductPage.CreateInput | frontend/src/pages/AdminProductPage.tsx:80-91 | The create payload keeps the form's fields and no status, with each time read as local time: the UTC reading moved back by the zone offset. |
| AdminProductPage.CreateIgnoresFormStatus | frontend/src/pages/AdminProductPage.tsx:80-91 | Creation never uses the form's status: the new product's status comes from its times as the page reads them. |
| AdminProductPage.UpdatePatch | frontend/src/pages/AdminProductPage.tsx:92-104 | The update patch sets every form field including the status, with each time read as local time: the UTC reading moved back by the zone offset. |
| AdminProductPage.EditSaveKeepsProduct | frontend/src/pages/AdminProductPage.tsx:92-104 | As written, editing and saving at once keeps every field but what the form normalises, and moves each time back by the zone offset: it gives the product back only at offset 0, and any other offset changes a whole-minute start. A status change moves only the status. |
| AdminProductPage.Page.constructor | frontend/src/pages/AdminProductPage.tsx:22-41 | The list is loaded, nothing is open, the form is blank, and the browser's zone offset is kept. |
| AdminProductPage.Page.HandleEdit | frontend/src/pages/AdminProductPage.tsx:43-59 | The product is open for editing with its form. |
| AdminProductPage.Page.HandleCreate | frontend/src/pages/AdminProductPage.tsx:61-77 | Create mode with the blank form. |
| AdminProductPage.Page.HandleStatusChange | frontend/src/pages/AdminProductPage.tsx:112-137 | The product is open with the next status in its form. |
| AdminProductPage.Page.ChangeForm | frontend/src/pages/AdminProductPage.tsx:22-33 | The form takes the typed values. |
| AdminProductPage.Page.Cancel | frontend/src/pages/AdminProductPage.tsx:106-109 | Nothing is left open. |
| AdminProductPage.Page.HandleSave | frontend/src/pages/AdminProductPage.tsx:79-110 | As written, with the date fields read as local time: create appends the new record; edit patches the first product with the id. Then the list reloads and the form closes. |
| LocustDemo.Trunc | loadtest/locustfile_demo.py:73 | int() truncates toward zero. |
| LocustDemo.Tick | loadtest/locustfile_demo.py:65-79 | The shape stops exactly when the run time exceeds ramp plus hold. |
| LocustDemo.TickBounds | loadtest/locustfile_demo.py:65-79 | While running, users lie between 1 and 1400 (the floored linear ramp, then 1400), and the spawn rate is 50. |
| LocustDemo.FloorMonotone | loadtest/locustfile_demo.py:73 | Flooring never reverses order. |
| LocustDemo.TickMonotone | loadtest/locustfile_demo.py:65-79 | The user count never falls while the shape runs. |
| LocustDemo.PriceCache.constructor | loadtest/locustfile_demo.py:34 | An empty cache. |
| LocustDemo.PriceCache.Get | loadtest/locustfile_demo.py:477-482 | The cached price, or 1000.0. |
| LocustDemo.PriceCache.Update | loadtest/locustfile_demo.py:484-488 | A stored price never falls, and no other product's price changes. |
| LocustDemo.FirstUpdateCanLower | loadtest/locustfile_demo.py:482-487 | The two defaults differ, so a first update of 500 lowers what get reports from 1000 to 500. |

## Left out

- Randomness is taken as parameters, and each random draw is modelled as a given value:
  - the mock product service's periodic price drift (`updateRankings`, mockProductService.ts lines 136-160) is not modelled, because it only applies random changes;
  - a new bidder's random reaction time;
  - the mock socket's price change and reconnect draw.
- Timers are not modelled. The effect of each `setInterval` and `setTimeout` callback is a method that the caller invokes when the timer fires.
- The Lua script that records a bid is not part of this model. Its verdict (accept, or −1) is a parameter, and its writes are `RecordBid`. Its update of currentHighestPrice is not modelled.
- The bidding service has side effects after a bid is accepted that are not modelled:
  - the goroutine that writes the bid to the database;
  - the broadcast helpers (`broadcastBidNotification`, `BroadcastRankingsUpdate`, `BroadcastProductUpdate`).
- `ListProducts`, the HTTP handlers and the auth service are not modelled; they are plain database and HTTP plumbing.
- JSON encoding and decoding are not modelled. Parsed messages are `Option` values, and a parse failure is `None`.
- JWT signature checking is not modelled. Identity starts from the claims already decoded.
- Floating point is modelled with exact reals. `math.Round`, `%f` and Go's float text round exactly.
  - `toLocaleString`, `toFixed(2)` and other purely visual formatting are not modelled.
- `parseFloat` is an input. The bid form receives its result, with `None` for NaN.
- JavaScript string length counts UTF-16 code units. The model counts Dafny characters, and `slice(-4)` is modelled on those.
- The time-zone offset is a single fixed number of minutes. Daylight-saving changes are not modelled.
- `new WebSocket(url)` throwing (websocketService.ts lines 109-112) is not modelled. A constructed socket always starts opening.
- AdminProductPage.Page.HandleSave: requires filled date fields when saving; an empty field, which the page would turn into NaN, is not modelled.
- ParseFloat (GoText.ParseFloat) accepts plain decimal text only: Go's strconv.ParseFloat also reads exponents ("1e3" is 1000), Inf and NaN text, hexadecimal floats, and gives ±Inf with an error out of range. These read as a syntax error here.
- GetFloat (Bidding.GetFloat) inherits ParseFloat's plain-decimal restriction, so a stored "1e3" gives the default here and 1000 in Go.
- HighestPrice (Bidding.HighestPrice) inherits the same restriction, so a stored "1e3" reads as 0 here and 1000 in Go.
- GetFloatReadsBack (Bidding.GetFloatReadsBack): the backend writes config floats through go-redis, which uses the shortest text that reads back to exactly the same float64. The model writes six decimals, so it promises only the value rounded to six decimals where the source gives the exact value.
- ConfigRecord (Product.ConfigRecord) writes basePrice, alpha, beta and gamma as six-decimal text, where go-redis writes the shortest exact text.
- ConfigReadsBack (AuctionFlow.ConfigReadsBack) therefore states the coefficients rounded to six decimals where the source reads them back exactly.
- CreatedCoefficientsReadBack (AuctionFlow.CreatedCoefficientsReadBack) states non-zero coefficients rounded to six decimals for the same reason.
- BidOnCreatedProduct (AuctionFlow.BidOnCreatedProduct) likewise scores with the coefficients rounded to six decimals.
- A failed Redis HSET is taken to write nothing. A write that reaches Redis before the client sees the error is not modelled.
- The state a Go panic leaves behind (the hub's Unregister, BroadcastToProduct and BroadcastAll) is not modelled. The panic is reported, and the broadcast goroutine's panic ends the server process.
- The registration page's redirect two seconds after success is not modelled.
- The load test's other direct writes to its price cache (locustfile_demo.py lines 185, 242, 246, 270, 273 and 465) are not modelled. Only the two accessor functions are.
- Concurrency is not modelled. The hub's mutex is modelled as each operation running alone, and goroutine interleavings are out of scope.

## Findings

| source | as written | input that shows it | evidently intended | confidence | as-written member | corrected member |
|---|---|---|---|---|---|---|
| frontend/src/services/websocketService.ts:62 | `connect` resets `reconnectAttempts` to 0 on every call, including the reconnect timer's own call, so the attempt limit and the back-off never take effect | a server that refuses every connection: each close schedules attempt 1 after 1000 ms, forever | at most five retries, with delays doubling from 1000 ms to 16000 ms | not executed | WebSocketClient.ReconnectsAsWritten | WebSocketClient.ReconnectsCorrected |
| backend/internal/bidding/service.go:128-135 | a stored k of 0 or less is used as is: ZREVRANGE 0..k−1 returns the whole set, and `items[k-1]` indexes out of range | config k = "0", with or without bids: GetRankings panics (GetResults, which has no threshold, returns every bidder as a winner) | k below 1 treated like a missing k (5) | not executed | Bidding.StoredZeroK | Bidding.RankingK |
| frontend/src/pages/AdminProductPage.tsx:86-87 | a datetime-local field filled with the UTC time is read back as local time | offset +480 minutes: editing and saving moves the product's start and end 8 hours earlier (`AdminProductPage.EditSaveKeepsProduct` with offset 480) | saving an unedited form keeps the times | not executed | AdminProductPage.FieldTimeAsWrittenShifts | AdminProductPage.FieldTimeRoundTrip |
| frontend/src/services/websocketService.ts:91-95 | the old socket's `onclose` still runs after a switch and clears `this.ws`, which by then is the new socket | connect("a"), open, then connect("b"): when a's close arrives, b's socket is dropped and a reconnect is scheduled | only the current socket's close affects the client | not executed | WebSocketClient.SwitchProductAsWritten | WebSocketClient.SwitchProductCorrected |
| frontend/src/components/RankingTable.tsx:29 | with k ≤ 0, `rankings[k - 1]?.score` is undefined, which passes `!== null`, so `toFixed` is called on undefined | a product with k = 0 (the admin form's default) and any rows | no threshold line when there is no k-th row | not executed | RankingTable.ThresholdAsWrittenUndefinedForNonPositiveK | RankingTable.Threshold |
| backend/internal/websocket/client.go:92-103 | readPump re-subscribes its client on a subscribe message even after BroadcastToProduct has dropped it for a full queue and closed its send channel | a client whose queue is full when a bid is broadcast, then sends subscribe for product q: the next broadcast to q sends on the closed channel and panics, ending the server | a client the hub has closed is not subscribed again | not executed | WebSocketHub.DroppedClientResubscribes | WebSocketHub.Hub.HandleMessageCorrected |

The model also records these behaviours as they are. None needs a correction:

- The mock product service's generated leaderboard is not in score order (`MockProducts.MockRankingsNotByScore`).
- Connecting the mock socket twice leaves the first interval running after disconnect (`MockSocket.DoubleConnectLeaksInterval`).
- Two simulated reconnects in a row leave the first reconnect timer running after disconnect, so it reports connected afterwards (`MockSocket.DoubleReconnectOrphansTimer`).
- A reconnect check still pending after disconnect reconnects a disconnected mock socket (`MockSocket.DisconnectedServiceReconnects`).
- The load test's price cache defaults to 1000 when read but to 0 when updated, so a first update can lower the price (`LocustDemo.FirstUpdateCanLower`).
- The hub's `broadcast` channel has no sender in the modelled code. `BroadcastAll` models what its case would do.
