/**
 * The stand-in for the live auction socket the front end uses without a
 * backend: one auction's data, a connection status, an update interval
 * that may raise the price and ends the auction once its end time has
 * come, a simulated reconnect, and bids checked against the data.
 */
module MockSocket {
  import opened Common
  import opened GoText
  import MockProducts

  type RankingItem = MockProducts.RankingItem

  datatype SocketStatus = Connected | Reconnecting | Disconnected

  /** What subscribers are sent; an absent end time is `null`. */
  datatype AuctionData = AuctionData(
    productName: string, basePrice: real, currentHighestPrice: real, k: int,
    endTime: Option<int>, activityStatus: ProductStatus, rankings: seq<RankingItem>)

  /** placeBid's two refusals, in the order they are checked. */
  datatype BidError = NotActive | BelowBasePrice

  datatype BidOutcome = Accepted | Refused(error: BidError)

  /** The i-th of the five fixed bidders. */
  function FixedRanking(i: nat): (item: RankingItem)
    ensures item.rank == i + 1 && item.userId == "user_" + FormatNat(i + 1)
    ensures item.score == MockProducts.Score(item.price, item.weight, item.reactionTime)
  {
    var price := 1200.0 - i as real * 50.0;
    var reactionTime := 100.0 + i as real * 20.0;
    var weight := 1.0 + i as real * 0.1;
    MockProducts.RankingItem(i + 1, "user_" + FormatNat(i + 1), MockProducts.MockDisplayName(i + 1),
                             price, reactionTime, weight, MockProducts.Score(price, weight, reactionTime))
  }

  /** The leaderboard every regeneration produces: always the same five bidders. */
  function FixedRankings(): (r: seq<RankingItem>)
    ensures |r| == 5
  {
    seq(5, i requires 0 <= i => FixedRanking(i))
  }

  /** The fixed leaderboard is ranked 1..5, scored as price * weight - reactionTime, with five different bidders. */
  lemma FixedRankingsShape()
    ensures var r := FixedRankings();
            && (forall i :: 0 <= i < 5 ==> r[i].rank == i + 1)
            && (forall i :: 0 <= i < 5 ==> r[i].score == MockProducts.Score(r[i].price, r[i].weight, r[i].reactionTime))
            && MockProducts.DistinctIds(r)
  {
    var r := FixedRankings();
    forall i | 0 <= i < 5
      ensures r[i].rank == i + 1 && r[i].score == MockProducts.Score(r[i].price, r[i].weight, r[i].reactionTime)
    {
      assert r[i] == FixedRanking(i);
    }
    forall i, j | 0 <= i < j < 5 ensures r[i].userId != r[j].userId {
      assert r[i] == FixedRanking(i) && r[j] == FixedRanking(j);
      var prefix := "user_";
      assert (prefix + FormatNat(i + 1))[|prefix|..] == FormatNat(i + 1);
      assert (prefix + FormatNat(j + 1))[|prefix|..] == FormatNat(j + 1);
      ParseFormatNat(i + 1);
      ParseFormatNat(j + 1);
    }
  }

  /** The data the service starts with at clock reading `now`: an active auction ending five minutes later. */
  function InitialData(now: int): AuctionData
  {
    AuctionData("限量藍芽耳機", 1000.0, 1200.0, 5, Some(now + 5 * 60 * 1000), Active, FixedRankings())
  }

  /**
   * One interval run: a positive price change raises the highest price
   * and regenerates the leaderboard; an end time that is set (and not 0,
   * which counts as unset) and has come ends the auction and clears it.
   */
  function IntervalStep(d: AuctionData, priceChange: int, now: int): (e: AuctionData)
  {
    var raised := if priceChange > 0
      then d.(currentHighestPrice := d.currentHighestPrice + priceChange as real, rankings := FixedRankings())
      else d;
    if raised.endTime.Some? && raised.endTime.value != 0 && now >= raised.endTime.value
    then raised.(activityStatus := Ended, endTime := None)
    else raised
  }

  /**
   * The interval ends the auction exactly when a non-zero end time has
   * come and then clears the end time, so it never looks at the clock
   * again; otherwise the status stays. The price only moves by a
   * positive change, and the name, base price and k never change.
   */
  lemma IntervalStepSpec(d: AuctionData, priceChange: int, now: int)
    ensures var e := IntervalStep(d, priceChange, now);
            && (d.endTime.Some? && d.endTime.value != 0 && now >= d.endTime.value ==>
                  e.activityStatus == Ended && e.endTime.None?)
            && (!(d.endTime.Some? && d.endTime.value != 0 && now >= d.endTime.value) ==>
                  e.activityStatus == d.activityStatus && e.endTime == d.endTime)
            && e.currentHighestPrice == d.currentHighestPrice + (if priceChange > 0 then priceChange as real else 0.0)
            && e.rankings == (if priceChange > 0 then FixedRankings() else d.rankings)
            && e.productName == d.productName && e.basePrice == d.basePrice && e.k == d.k
  {
  }

  /** Any run of interval steps at any clock readings and price changes. */
  function IntervalRun(d: AuctionData, changes: seq<int>, clock: seq<int>): AuctionData
    requires |changes| == |clock|
    decreases |changes|
  {
    if changes == [] then d
    else IntervalRun(IntervalStep(d, changes[0], clock[0]), changes[1..], clock[1..])
  }

  /**
   * Once the auction has ended and its end time is cleared, no run of the
   * interval reopens it or sets an end time again; and a run of
   * non-negative price changes never lowers the highest price.
   */
  lemma {:induction false} IntervalRunSpec(d: AuctionData, changes: seq<int>, clock: seq<int>)
    requires |changes| == |clock|
    decreases |changes|
    ensures d.activityStatus == Ended && d.endTime.None? ==>
              IntervalRun(d, changes, clock).activityStatus == Ended && IntervalRun(d, changes, clock).endTime.None?
    ensures (forall i :: 0 <= i < |changes| ==> changes[i] >= 0) ==>
              IntervalRun(d, changes, clock).currentHighestPrice >= d.currentHighestPrice
  {
    if changes != [] {
      IntervalRunSpec(IntervalStep(d, changes[0], clock[0]), changes[1..], clock[1..]);
      if forall i :: 0 <= i < |changes| ==> changes[i] >= 0 {
        assert changes[0] >= 0;
        assert forall i :: 0 <= i < |changes[1..]| ==> changes[1..][i] == changes[i + 1];
      }
    }
  }

  /** An end time of 0 is falsy: the interval never ends such an auction. */
  lemma ZeroEndTimeNeverEnds(d: AuctionData, priceChange: int, now: int)
    requires d.endTime == Some(0)
    ensures IntervalStep(d, priceChange, now).activityStatus == d.activityStatus
    ensures IntervalStep(d, priceChange, now).endTime == Some(0)
  {
  }

  /** placeBid's checks, in order: the auction must be active, then the price at least the base price. */
  function CheckBid(d: AuctionData, price: real): (o: BidOutcome)
    ensures o == Refused(NotActive) <==> d.activityStatus != Active
    ensures o == Refused(BelowBasePrice) <==> d.activityStatus == Active && price < d.basePrice
    ensures o == Accepted <==> d.activityStatus == Active && price >= d.basePrice
  {
    if d.activityStatus != Active then Refused(NotActive)
    else if price < d.basePrice then Refused(BelowBasePrice)
    else Accepted
  }

  /** The data after an accepted bid: the highest price rises to a higher bid, the leaderboard is regenerated. */
  function AfterBid(d: AuctionData, price: real): (e: AuctionData)
    ensures e.currentHighestPrice == Max(d.currentHighestPrice, price)
    ensures e.rankings == FixedRankings()
    ensures e.(currentHighestPrice := d.currentHighestPrice, rankings := d.rankings) == d
  {
    var raised := if price > d.currentHighestPrice then d.(currentHighestPrice := price) else d;
    raised.(rankings := FixedRankings())
  }

  /** Accepting the same bid twice is accepting it once. */
  lemma AfterBidIdempotent(d: AuctionData, price: real)
    ensures CheckBid(AfterBid(d, price), price) == CheckBid(d, price)
    ensures AfterBid(AfterBid(d, price), price) == AfterBid(d, price)
  {
  }

  /**
   * The service. `updates` and `statusReports` are what the two callbacks
   * have been handed, in order; nothing is handed over while a callback is
   * unset. `liveIntervals` counts update intervals still running,
   * `intervalHeld` says whether the service still holds the id of the
   * last one, and `reconnectChecks` counts the ten-second reconnect
   * checks still to fire.
   */
  class Service {
    var data: AuctionData
    var status: SocketStatus
    var userId: Option<string>
    var updateHooked: bool
    var statusHooked: bool
    var updates: seq<AuctionData>
    var statusReports: seq<SocketStatus>
    var liveIntervals: nat
    var intervalHeld: bool
    var reconnectChecks: nat
    var reconnectTimers: nat
    var heldPending: bool
    var reconnectHeld: bool

    /** A held interval id belongs to a running interval; a held reconnect id that is still pending counts as a running timer. */
    predicate Valid()
      reads this
    {
      (intervalHeld ==> liveIntervals > 0) && (heldPending ==> reconnectHeld && reconnectTimers > 0)
    }

    /** At clock reading `now`: disconnected, no callbacks, no timers. */
    constructor(now: int)
      ensures data == InitialData(now) && status == Disconnected && userId.None?
      ensures !updateHooked && !statusHooked && updates == [] && statusReports == []
      ensures liveIntervals == 0 && !intervalHeld && reconnectChecks == 0 && reconnectTimers == 0 && !heldPending && !reconnectHeld
      ensures Valid()
    {
      data := AuctionData("限量藍芽耳機", 1000.0, 1200.0, 5, Some(now + 5 * 60 * 1000), Active, []);
      status := Disconnected;
      userId := None;
      updateHooked, statusHooked := false, false;
      updates, statusReports := [], [];
      liveIntervals, intervalHeld := 0, false;
      reconnectChecks, reconnectTimers, heldPending, reconnectHeld := 0, 0, false, false;
      new;
      var r := GenerateMockRankings();
      data := data.(rankings := r);
    }

    /** generateMockRankings: the five fixed bidders built one by one. */
    method GenerateMockRankings() returns (r: seq<RankingItem>)
      ensures r == FixedRankings()
    {
      r := [];
      var i := 0;
      while i < 5
        invariant 0 <= i <= 5 && |r| == i
        invariant forall j :: 0 <= j < i ==> r[j] == FixedRanking(j)
      {
        var price := 1200.0 - i as real * 50.0;
        var reactionTime := 100.0 + i as real * 20.0;
        var weight := 1.0 + i as real * 0.1;
        var score := MockProducts.Score(price, weight, reactionTime);
        r := r + [MockProducts.RankingItem(i + 1, "user_" + FormatNat(i + 1), MockProducts.MockDisplayName(i + 1),
                                           price, reactionTime, weight, score)];
        i := i + 1;
      }
      ghost var expected := FixedRankings();
      forall j | 0 <= j < 5 ensures r[j] == expected[j] {
        assert expected[j] == FixedRanking(j);
      }
    }

    /** Hands the data to the update callback, if one is set. */
    method PushUpdate()
      modifies this
      ensures updates == old(updates) + (if updateHooked then [data] else [])
      ensures data == old(data) && status == old(status) && statusReports == old(statusReports)
      ensures userId == old(userId) && updateHooked == old(updateHooked) && statusHooked == old(statusHooked)
      ensures liveIntervals == old(liveIntervals) && intervalHeld == old(intervalHeld)
      ensures reconnectChecks == old(reconnectChecks) && reconnectTimers == old(reconnectTimers) && heldPending == old(heldPending)
      ensures reconnectHeld == old(reconnectHeld)
    {
      if updateHooked {
        updates := updates + [data];
      }
    }

    /** Sets the status and reports it to the status callback, if one is set. */
    method SetStatus(s: SocketStatus)
      modifies this
      ensures status == s
      ensures statusReports == old(statusReports) + (if statusHooked then [s] else [])
      ensures data == old(data) && updates == old(updates)
      ensures userId == old(userId) && updateHooked == old(updateHooked) && statusHooked == old(statusHooked)
      ensures liveIntervals == old(liveIntervals) && intervalHeld == old(intervalHeld)
      ensures reconnectChecks == old(reconnectChecks) && reconnectTimers == old(reconnectTimers) && heldPending == old(heldPending)
      ensures reconnectHeld == old(reconnectHeld)
    {
      status := s;
      if statusHooked {
        statusReports := statusReports + [s];
      }
    }

    /** onUpdate. */
    method OnUpdate()
      requires Valid()
      modifies this
      ensures Valid()
      ensures updateHooked
      ensures data == old(data) && status == old(status) && updates == old(updates) && statusReports == old(statusReports)
      ensures userId == old(userId) && statusHooked == old(statusHooked)
      ensures liveIntervals == old(liveIntervals) && intervalHeld == old(intervalHeld)
      ensures reconnectChecks == old(reconnectChecks) && reconnectTimers == old(reconnectTimers) && heldPending == old(heldPending)
      ensures reconnectHeld == old(reconnectHeld)
    {
      updateHooked := true;
    }

    /** onStatusChange. */
    method OnStatusChange()
      requires Valid()
      modifies this
      ensures Valid()
      ensures statusHooked
      ensures data == old(data) && status == old(status) && updates == old(updates) && statusReports == old(statusReports)
      ensures userId == old(userId) && updateHooked == old(updateHooked)
      ensures liveIntervals == old(liveIntervals) && intervalHeld == old(intervalHeld)
      ensures reconnectChecks == old(reconnectChecks) && reconnectTimers == old(reconnectTimers) && heldPending == old(heldPending)
      ensures reconnectHeld == old(reconnectHeld)
    {
      statusHooked := true;
    }

    /**
     * connect: report 'connected', push the data once, start an update
     * interval and a ten-second reconnect check. The id of an interval
     * started by an earlier connect is overwritten, not cleared.
     */
    method Connect(user: string)
      requires Valid()
      modifies this
      ensures Valid()
      ensures userId == Some(user) && status == Connected && data == old(data)
      ensures statusReports == old(statusReports) + (if statusHooked then [Connected] else [])
      ensures updates == old(updates) + (if updateHooked then [data] else [])
      ensures liveIntervals == old(liveIntervals) + 1 && intervalHeld
      ensures reconnectChecks == old(reconnectChecks) + 1
      ensures updateHooked == old(updateHooked) && statusHooked == old(statusHooked)
      ensures reconnectTimers == old(reconnectTimers) && heldPending == old(heldPending) && reconnectHeld == old(reconnectHeld)
    {
      userId := Some(user);
      SetStatus(Connected);
      PushUpdate();
      liveIntervals := liveIntervals + 1;
      intervalHeld := true;
      reconnectChecks := reconnectChecks + 1;
    }

    /** An update interval fires with the drawn price change at clock reading `now`, and pushes the data. */
    method IntervalFires(priceChange: int, now: int)
      requires liveIntervals > 0
      requires Valid()
      modifies this
      ensures Valid()
      ensures data == IntervalStep(old(data), priceChange, now)
      ensures updates == old(updates) + (if updateHooked then [data] else [])
      ensures status == old(status) && statusReports == old(statusReports) && userId == old(userId)
      ensures updateHooked == old(updateHooked) && statusHooked == old(statusHooked)
      ensures liveIntervals == old(liveIntervals) && intervalHeld == old(intervalHeld)
      ensures reconnectChecks == old(reconnectChecks) && reconnectTimers == old(reconnectTimers) && heldPending == old(heldPending)
      ensures reconnectHeld == old(reconnectHeld)
    {
      if priceChange > 0 {
        var r := GenerateMockRankings();
        data := data.(currentHighestPrice := data.currentHighestPrice + priceChange as real, rankings := r);
      }
      if data.endTime.Some? && data.endTime.value != 0 && now >= data.endTime.value {
        data := data.(activityStatus := Ended, endTime := None);
      }
      PushUpdate();
    }

    /** A ten-second reconnect check fires; `drawn` is whether the random draw exceeded 0.7. */
    method ReconnectCheckFires(drawn: bool)
      requires reconnectChecks > 0
      requires Valid()
      modifies this
      ensures Valid()
      ensures reconnectChecks == old(reconnectChecks) - 1
      ensures drawn ==> status == Reconnecting && reconnectTimers == old(reconnectTimers) + 1 && heldPending && reconnectHeld
      ensures drawn ==> statusReports == old(statusReports) + (if statusHooked then [Reconnecting] else [])
      ensures !drawn ==> status == old(status) && statusReports == old(statusReports)
      ensures !drawn ==> reconnectTimers == old(reconnectTimers) && heldPending == old(heldPending) && reconnectHeld == old(reconnectHeld)
      ensures data == old(data) && updates == old(updates) && userId == old(userId)
      ensures updateHooked == old(updateHooked) && statusHooked == old(statusHooked)
      ensures liveIntervals == old(liveIntervals) && intervalHeld == old(intervalHeld)
    {
      reconnectChecks := reconnectChecks - 1;
      if drawn {
        SimulateReconnect();
      }
    }

    /**
     * simulateReconnect: report 'reconnecting' and start a two-second
     * reconnect timer whose id is held. A timer started earlier keeps
     * running with its id overwritten.
     */
    method SimulateReconnect()
      requires Valid()
      modifies this
      ensures Valid()
      ensures status == Reconnecting && reconnectTimers == old(reconnectTimers) + 1 && heldPending && reconnectHeld
      ensures statusReports == old(statusReports) + (if statusHooked then [Reconnecting] else [])
      ensures data == old(data) && updates == old(updates) && userId == old(userId)
      ensures updateHooked == old(updateHooked) && statusHooked == old(statusHooked)
      ensures liveIntervals == old(liveIntervals) && intervalHeld == old(intervalHeld)
      ensures reconnectChecks == old(reconnectChecks)
    {
      SetStatus(Reconnecting);
      reconnectTimers := reconnectTimers + 1;
      heldPending := true;
      reconnectHeld := true;
    }

    /**
     * A reconnect timer fires and reports 'connected': the one whose id is
     * held (`held`), or one whose id was overwritten. A held id stays held.
     */
    method ReconnectTimerFires(held: bool)
      requires held ==> heldPending
      requires !held ==> reconnectTimers > (if heldPending then 1 else 0)
      requires Valid()
      modifies this
      ensures Valid()
      ensures reconnectTimers == old(reconnectTimers) - 1
      ensures heldPending == (old(heldPending) && !held)
      ensures status == Connected && reconnectHeld == old(reconnectHeld)
      ensures statusReports == old(statusReports) + (if statusHooked then [Connected] else [])
      ensures data == old(data) && updates == old(updates) && userId == old(userId)
      ensures updateHooked == old(updateHooked) && statusHooked == old(statusHooked)
      ensures liveIntervals == old(liveIntervals) && intervalHeld == old(intervalHeld)
      ensures reconnectChecks == old(reconnectChecks)
    {
      reconnectTimers := reconnectTimers - 1;
      if held {
        heldPending := false;
      }
      SetStatus(Connected);
    }

    /**
     * disconnect: clear the held interval and reconnect timer and report
     * 'disconnected'. Overwritten intervals and reconnect timers, and
     * pending reconnect checks, are not cleared.
     */
    method Disconnect()
      requires Valid()
      modifies this
      ensures Valid()
      ensures status == Disconnected
      ensures statusReports == old(statusReports) + (if statusHooked then [Disconnected] else [])
      ensures liveIntervals == (if old(intervalHeld) then old(liveIntervals) - 1 else old(liveIntervals))
      ensures !intervalHeld && !reconnectHeld && !heldPending
      ensures reconnectTimers == (if old(heldPending) then old(reconnectTimers) - 1 else old(reconnectTimers))
      ensures reconnectChecks == old(reconnectChecks)
      ensures data == old(data) && updates == old(updates) && userId == old(userId)
      ensures updateHooked == old(updateHooked) && statusHooked == old(statusHooked)
    {
      if intervalHeld {
        liveIntervals := liveIntervals - 1;
        intervalHeld := false;
      }
      if reconnectHeld {
        if heldPending {
          reconnectTimers := reconnectTimers - 1;
        }
        heldPending := false;
        reconnectHeld := false;
      }
      SetStatus(Disconnected);
    }

    /**
     * placeBid: a refused bid changes nothing; an accepted one raises the
     * highest price to a higher bid, regenerates the leaderboard and
     * pushes the data.
     */
    method PlaceBid(price: real) returns (outcome: BidOutcome)
      requires Valid()
      modifies this
      ensures Valid()
      ensures outcome == CheckBid(old(data), price)
      ensures outcome.Refused? ==> data == old(data) && updates == old(updates)
      ensures outcome.Accepted? ==> data == AfterBid(old(data), price)
      ensures outcome.Accepted? ==> updates == old(updates) + (if updateHooked then [data] else [])
      ensures status == old(status) && statusReports == old(statusReports) && userId == old(userId)
      ensures updateHooked == old(updateHooked) && statusHooked == old(statusHooked)
      ensures liveIntervals == old(liveIntervals) && intervalHeld == old(intervalHeld)
      ensures reconnectChecks == old(reconnectChecks) && reconnectTimers == old(reconnectTimers) && heldPending == old(heldPending)
      ensures reconnectHeld == old(reconnectHeld)
    {
      if data.activityStatus != Active {
        return Refused(NotActive);
      }
      if price < data.basePrice {
        return Refused(BelowBasePrice);
      }
      if price > data.currentHighestPrice {
        data := data.(currentHighestPrice := price);
      }
      var r := GenerateMockRankings();
      data := data.(rankings := r);
      PushUpdate();
      outcome := Accepted;
    }

    /** getCurrentData: a copy of the data. */
    function GetCurrentData(): (d: AuctionData)
      reads this
      ensures d == data
    {
      data
    }
  }

  /**
   * Connecting twice and then disconnecting leaves the first update
   * interval running: its id was overwritten by the second connect.
   */
  method DoubleConnectLeaksInterval(now: int) returns (running: nat, held: bool)
    ensures running == 1 && !held
  {
    var ws := new Service(now);
    ws.Connect("u1");
    ws.Connect("u1");
    ws.Disconnect();
    running, held := ws.liveIntervals, ws.intervalHeld;
  }

  /**
   * disconnect leaves the ten-second reconnect check of connect pending,
   * so a disconnected service can still go on to report 'reconnecting'
   * and then 'connected'.
   */
  method DisconnectedServiceReconnects(now: int) returns (reports: seq<SocketStatus>, final: SocketStatus)
    ensures reports == [Connected, Disconnected, Reconnecting, Connected] && final == Connected
  {
    var ws := new Service(now);
    ws.OnStatusChange();
    ws.Connect("u1");
    ws.Disconnect();
    ws.ReconnectCheckFires(true);
    ws.ReconnectTimerFires(true);
    reports, final := ws.statusReports, ws.status;
  }

  /**
   * Two reconnects in a row start two reconnect timers, and the second
   * overwrites the id of the first: disconnect clears only the second, so
   * the first still fires and reports 'connected' after 'disconnected'.
   */
  method DoubleReconnectOrphansTimer(now: int) returns (reports: seq<SocketStatus>, final: SocketStatus, running: nat)
    ensures reports == [Connected, Connected, Reconnecting, Reconnecting, Disconnected, Connected]
    ensures final == Connected && running == 0
  {
    var ws := new Service(now);
    ws.OnStatusChange();
    ws.Connect("u1");
    ws.Connect("u1");
    ws.ReconnectCheckFires(true);
    ws.ReconnectCheckFires(true);
    ws.Disconnect();
    ws.ReconnectTimerFires(false);
    reports, final, running := ws.statusReports, ws.status, ws.reconnectTimers;
  }
}
