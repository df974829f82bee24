/**
 * The bidding service of the Go backend: the Go-side checks of a bid, the
 * record a bid leaves in Redis, and the leaderboard and final-result reads
 * built from the sorted set and the details hash.
 */
module Bidding {
  import opened Common
  import opened GoText
  import ZSet = RedisZSet
  import Redis
  import Scoring

  type Hash = Redis.Hash

  datatype ServiceError =
    | ProductNotConfigured  // the config hash is empty
    | AuctionNotStarted     // now < startTime
    | AuctionClosed         // the bid script answered -1
    | AuctionNotEnded       // results asked for before the status is "ended"

  datatype Result<T> = Ok(value: T) | Err(error: ServiceError)

  /** What the bid script (not part of this model) answers: -1, or anything else. */
  datatype ScriptReply = Rejected | Accepted

  // -------------------------------------------------------------------
  // Reading typed values out of a hash, with a fallback

  /** getFloat: the stored field when it parses as a float, else the fallback. */
  function GetFloat(m: Hash, key: string, fallback: real): (r: real)
    ensures key !in m || !ParseFloat(m[key]).ok ==> r == fallback
    ensures key in m && ParseFloat(m[key]).ok ==> r == ParseFloat(m[key]).value
  {
    if key in m && ParseFloat(m[key]).ok then ParseFloat(m[key]).value else fallback
  }

  /** getInt64: the stored field when it parses as a 64-bit integer, else the fallback. */
  function GetInt64(m: Hash, key: string, fallback: int): (r: int)
    ensures key !in m || !ParseInt64(m[key]).ok ==> r == fallback
    ensures key in m && ParseInt64(m[key]).ok ==> r == ParseInt64(m[key]).value && MinInt64 <= r <= MaxInt64
  {
    if key in m && ParseInt64(m[key]).ok then ParseInt64(m[key]).value else fallback
  }

  /**
   * getInt: strconv.Atoi, which on a 64-bit platform accepts exactly what
   * ParseInt(s, 10, 64) accepts, so it reads what getInt64 reads.
   */
  function GetInt(m: Hash, key: string, fallback: int): (r: int)
    ensures key !in m || !ParseInt64(m[key]).ok ==> r == fallback
    ensures key in m && ParseInt64(m[key]).ok ==> r == ParseInt64(m[key]).value && MinInt64 <= r <= MaxInt64
  {
    GetInt64(m, key, fallback)
  }

  /** A 64-bit integer written with %d reads back exactly. */
  lemma GetInt64ReadsBack(m: Hash, key: string, i: int, fallback: int)
    requires MinInt64 <= i <= MaxInt64
    requires key in m && m[key] == FormatInt(i)
    ensures GetInt64(m, key, fallback) == i
    ensures GetInt(m, key, fallback) == i
  {
    ParseFormatInt(i);
  }

  /** A float written with six decimals reads back rounded to six decimals. */
  lemma GetFloatReadsBack(m: Hash, key: string, x: real, fallback: real)
    requires key in m && m[key] == FormatFixed6(x)
    ensures GetFloat(m, key, fallback) == Round6(x)
  {
    ParseFormatFixed6(x);
  }

  // -------------------------------------------------------------------
  // The details string "price,reactionTime,weight"

  datatype Details = Details(price: real, reactionTime: int, weight: real)

  /** fmt.Sprintf("%f,%d,%f", price, reactionTime, weight). */
  function EncodeDetails(price: real, reactionTime: int, weight: real): string
  {
    Join([FormatFixed6(price), FormatInt(reactionTime), FormatFixed6(weight)], ',')
  }

  /**
   * Fields 0, 1 and 2 of the comma split when there are at least three;
   * a field that does not parse gives what the Go parser returns with its
   * error (0, or a clamped integer), and fewer than three fields give zeros.
   */
  function DecodeDetails(s: string): (d: Details)
    ensures |Split(s, ',')| < 3 ==> d == Details(0.0, 0, 0.0)
    ensures |Split(s, ',')| >= 3 ==>
              var parts := Split(s, ',');
              && d.price == ParseFloat(parts[0]).value
              && d.reactionTime == ParseInt64(parts[1]).value
              && d.weight == ParseFloat(parts[2]).value
              && (!ParseFloat(parts[0]).ok ==> d.price == 0.0)
              && (!ParseFloat(parts[2]).ok ==> d.weight == 0.0)
    ensures MinInt64 <= d.reactionTime <= MaxInt64
  {
    var parts := Split(s, ',');
    if |parts| >= 3 then
      Details(ParseFloat(parts[0]).value, ParseInt64(parts[1]).value, ParseFloat(parts[2]).value)
    else
      Details(0.0, 0, 0.0)
  }

  predicate NumberText(s: string)
  {
    forall i :: 0 <= i < |s| ==> IsDigit(s[i]) || s[i] == '-' || s[i] == '.'
  }

  lemma PadLeftDigits(s: string, width: nat)
    requires AllDigits(s)
    ensures AllDigits(PadLeft(s, width, '0'))
  {
    var r := PadLeft(s, width, '0');
    forall i | 0 <= i < |r| ensures IsDigit(r[i]) {
      if i >= |r| - |s| {
        assert r[i] == r[|r| - |s|..][i - (|r| - |s|)];
      }
    }
  }

  lemma NumberTextConcat(a: string, b: string)
    requires NumberText(a) && NumberText(b)
    ensures NumberText(a + b)
  {
    forall i | 0 <= i < |a + b| ensures IsDigit((a + b)[i]) || (a + b)[i] == '-' || (a + b)[i] == '.' {
      if i >= |a| { assert (a + b)[i] == b[i - |a|]; }
    }
  }

  lemma MicrosAreNumberText(m: int)
    ensures NumberText(FormatMicros(m))
  {
    var a := if m < 0 then -m else m;
    var sign: string := if m < 0 then "-" else "";
    var ip := FormatNat(a / Micro);
    var frac := PadLeft(FormatNat(a % Micro), 6, '0');
    PadLeftDigits(FormatNat(a % Micro), 6);
    NumberTextConcat(sign, ip);
    NumberTextConcat(sign + ip, ".");
    NumberTextConcat(sign + ip + ".", frac);
  }

  lemma NumbersHaveNoComma(x: real, i: int)
    ensures ',' !in FormatFixed6(x) && ',' !in FormatInt(i)
  {
    MicrosAreNumberText(RoundHalfAway(x * 1000000.0));
    var t := FormatInt(i);
    if i < 0 { NumberTextConcat("-", FormatNat(-i)); }
    assert NumberText(t);
  }

  /** Decoding a stored details string gives back the reaction time exactly and price and weight to %f's six decimals. */
  lemma DecodeEncodeDetails(price: real, reactionTime: int, weight: real)
    requires MinInt64 <= reactionTime <= MaxInt64
    ensures DecodeDetails(EncodeDetails(price, reactionTime, weight)) == Details(Round6(price), reactionTime, Round6(weight))
  {
    var parts := [FormatFixed6(price), FormatInt(reactionTime), FormatFixed6(weight)];
    NumbersHaveNoComma(price, reactionTime);
    NumbersHaveNoComma(weight, 0);
    SplitJoin(parts, ',');
    ParseFormatFixed6(price);
    ParseFormatInt(reactionTime);
    ParseFormatFixed6(weight);
  }

  // -------------------------------------------------------------------
  // Placing a bid

  /** CalculateScore with the coefficients read from the config (defaults 0, 1.0, 0.5, 0.3). */
  function BidScore(config: Hash, price: real, weight: real, now: int): real
  {
    Scoring.CalculateScore(price, GetInt64(config, "startTime", 0), weight,
      GetFloat(config, "alpha", 1.0), GetFloat(config, "beta", 0.5), GetFloat(config, "gamma", 0.3), now)
  }

  /**
   * The outcome of PlaceBid, from the config hash, the clock reading of the
   * start check (`now`), the later clock reading inside CalculateScore
   * (`scoreNow`) and the bid script's answer.
   */
  function PlaceBidOutcome(config: Hash, price: real, weight: real, now: int, scoreNow: int, script: ScriptReply): (r: Result<real>)
    ensures |config| == 0 ==> r == Err(ProductNotConfigured)
    ensures |config| > 0 && now < GetInt64(config, "startTime", 0) ==> r == Err(AuctionNotStarted)
    ensures |config| > 0 && now >= GetInt64(config, "startTime", 0) && script.Rejected? ==> r == Err(AuctionClosed)
    ensures r.Ok? <==> |config| > 0 && now >= GetInt64(config, "startTime", 0) && script.Accepted?
    ensures r.Ok? ==> r.value == BidScore(config, price, weight, scoreNow)
  {
    if |config| == 0 then Err(ProductNotConfigured)
    else if now < GetInt64(config, "startTime", 0) then Err(AuctionNotStarted)
    else if script.Rejected? then Err(AuctionClosed)
    else Ok(BidScore(config, price, weight, scoreNow))
  }

  /** An accepted bid is never scored for a moment before the start: its reaction time is not negative. */
  lemma AcceptedBidReactionTime(config: Hash, price: real, weight: real, now: int, scoreNow: int, script: ScriptReply)
    requires PlaceBidOutcome(config, price, weight, now, scoreNow, script).Ok?
    ensures now - GetInt64(config, "startTime", 0) >= 0
  {
  }

  // -------------------------------------------------------------------
  // Leaderboard items

  datatype RankingItem = RankingItem(rank: int, userID: string, displayName: string, price: real,
                                     reactionTime: int, weight: real, score: real)

  datatype RankingResponse = RankingResponse(rankings: seq<RankingItem>, thresholdScore: real, currentHighestPrice: real)

  datatype ResultItem = ResultItem(rank: int, userID: string, displayName: string, finalPrice: real,
                                   finalScore: real, isWinner: bool)

  /** "User_" + id, unless the id is a 32-bit unsigned number naming a user row. */
  function DisplayName(userID: string, users: map<nat, string>): (name: string)
    ensures !ParseUint32(userID).ok ==> name == "User_" + userID
  {
    var id := ParseUint32(userID);
    if id.ok && id.value in users then users[id.value] else "User_" + userID
  }

  /** A registered user's decimal id shows their user name. */
  lemma DisplayNameOfRegisteredUser(n: nat, users: map<nat, string>)
    requires n <= MaxUint32 && n in users
    ensures DisplayName(FormatNat(n), users) == users[n]
  {
    ParseFormatNat(n);
  }

  /** HGET of a missing field is redis.Nil with an empty string, which the service ignores. */
  function DetailsOf(bids: Hash, userID: string): string
  {
    if userID in bids then bids[userID] else ""
  }

  /** The item built for position i of the window. */
  function MakeItem(i: nat, e: ZSet.Entry, bids: Hash, users: map<nat, string>): RankingItem
  {
    var d := DecodeDetails(DetailsOf(bids, e.member));
    RankingItem(i + 1, e.member, DisplayName(e.member, users), d.price, d.reactionTime, d.weight, e.score)
  }

  function RankingItems(window: seq<ZSet.Entry>, bids: Hash, users: map<nat, string>): (items: seq<RankingItem>)
    ensures |items| == |window|
  {
    seq(|window|, i requires 0 <= i < |window| => MakeItem(i, window[i], bids, users))
  }

  /**
   * The items of a well-formed window are ranked 1..n without gaps, carry
   * the set's scores in non-increasing order, and name each user once.
   */
  lemma RankingItemsShape(window: seq<ZSet.Entry>, bids: Hash, users: map<nat, string>)
    requires ZSet.Valid(window)
    ensures var items := RankingItems(window, bids, users);
            && (forall i :: 0 <= i < |items| ==> items[i].rank == i + 1)
            && (forall i :: 0 <= i < |items| ==> items[i].userID == window[i].member && items[i].score == window[i].score)
            && (forall i, j :: 0 <= i <= j < |items| ==> items[i].score >= items[j].score)
            && (forall i, j :: 0 <= i < j < |items| ==> items[i].userID != items[j].userID)
  {
    var items := RankingItems(window, bids, users);
    forall i, j | 0 <= i <= j < |items| ensures items[i].score >= items[j].score {
      ZSet.ValidScoresNonIncreasing(window, i, j);
    }
  }

  // -------------------------------------------------------------------
  // k and the threshold

  /** The k GetRankings and GetResults parse, exactly as written: Atoi of the stored field, else 5. */
  function RankingKAsWritten(config: Hash): (k: int)
    ensures "k" !in config ==> k == 5
  {
    GetInt(config, "k", 5)
  }

  /** The k used by this model: as written, except that a stored k below 1 counts as unusable and gives 5. */
  function RankingK(config: Hash): (k: int)
    ensures k >= 1
    ensures RankingKAsWritten(config) >= 1 ==> k == RankingKAsWritten(config)
    ensures RankingKAsWritten(config) < 1 ==> k == 5
  {
    var k := RankingKAsWritten(config);
    if k >= 1 then k else 5
  }

  /** The server's thresholdScore: the k-th score, else the last one, else 0. */
  function Threshold(items: seq<RankingItem>, k: int): (t: real)
    requires k >= 1
  {
    if |items| >= k then items[k - 1].score
    else if |items| > 0 then items[|items| - 1].score
    else 0.0
  }

  /** The threshold rule as written; None where items[k-1] is out of range and the request panics. */
  function ThresholdAsWritten(items: seq<RankingItem>, k: int): (t: Option<real>)
    ensures k >= 1 ==> t == Some(Threshold(items, k))
  {
    if |items| >= k then (if 0 <= k - 1 < |items| then Some(items[k - 1].score) else None)
    else if |items| > 0 then Some(items[|items| - 1].score)
    else Some(0.0)
  }

  /**
   * For a top-k list (at most k items, scores non-increasing) the threshold
   * is the lowest listed score, or 0 for an empty list.
   */
  lemma ThresholdIsLowestListed(items: seq<RankingItem>, k: int)
    requires k >= 1 && |items| <= k
    requires forall i, j :: 0 <= i <= j < |items| ==> items[i].score >= items[j].score
    ensures items == [] ==> Threshold(items, k) == 0.0
    ensures items != [] ==> Threshold(items, k) == items[|items| - 1].score
    ensures forall i :: 0 <= i < |items| ==> items[i].score >= Threshold(items, k)
  {
    if items != [] {
      assert Threshold(items, k) == items[|items| - 1].score;
    }
  }

  /** As written, every k <= 0 makes the threshold index items[k-1] negative, so GetRankings panics. */
  lemma ThresholdAsWrittenPanicsForNonPositiveK(items: seq<RankingItem>, k: int)
    requires k <= 0
    ensures ThresholdAsWritten(items, k) == None
  {
  }

  /**
   * A product stored with k = "0" (the admin form's default): as written,
   * k is 0, the window 0..-1 is the whole set, so every bidder is returned
   * as a winner, and the threshold panics; the corrected k is 5.
   */
  lemma StoredZeroK(z: seq<ZSet.Entry>, bids: Hash, users: map<nat, string>)
    ensures var config := map["k" := "0"];
            && RankingKAsWritten(config) == 0
            && ZSet.ZRevRange(z, 0, RankingKAsWritten(config) - 1) == z
            && ThresholdAsWritten(RankingItems(z, bids, users), RankingKAsWritten(config)) == None
            && RankingK(config) == 5
  {
    assert FormatInt(0) == "0";
    ParseFormatInt(0);
    ZSet.ZeroKWindowIsEverything(z);
  }

  /** With the corrected k the leaderboard never lists more than k users. */
  lemma CorrectedWindowBounded(z: seq<ZSet.Entry>, config: Hash)
    ensures |ZSet.ZRevRange(z, 0, RankingK(config) - 1)| <= RankingK(config)
  {
    ZSet.TopWindow(z, RankingK(config));
  }

  /** currentHighestPrice as GetRankings reads it: ParseFloat's value (0 on error), or 0 when absent. */
  function HighestPrice(config: Hash): (p: real)
    ensures "currentHighestPrice" !in config ==> p == 0.0
    ensures "currentHighestPrice" in config && !ParseFloat(config["currentHighestPrice"]).ok ==> p == 0.0
  {
    if "currentHighestPrice" in config then ParseFloat(config["currentHighestPrice"]).value else 0.0
  }

  /** The status GetResults sees: the stored field, or "not_started" when absent. */
  function StoredStatus(config: Hash): (s: string)
    ensures "status" !in config ==> s == StatusName(NotStarted)
  {
    if "status" in config then config["status"] else "not_started"
  }

  function ToResult(item: RankingItem): (r: ResultItem)
    ensures r.isWinner
  {
    ResultItem(item.rank, item.userID, item.displayName, item.price, item.score, true)
  }

  // -------------------------------------------------------------------
  // The service over a Redis store and the users table

  class Service {
    const rdb: Redis.Store
    var users: map<nat, string>

    constructor(rdb: Redis.Store, users: map<nat, string>)
      ensures this.rdb == rdb && this.users == users
    {
      this.rdb := rdb;
      this.users := users;
    }

    /**
     * PlaceBid: the three refusals change nothing; an accepted bid puts the
     * user in the sorted set with the returned score and records
     * "price,reactionTime,weight" with reactionTime = now - startTime.
     */
    method PlaceBid(productID: string, userID: string, price: real, weight: real, now: int, scoreNow: int, script: ScriptReply)
      returns (r: Result<real>)
      requires rdb.Valid()
      modifies rdb
      ensures rdb.Valid()
      ensures r == PlaceBidOutcome(old(rdb.Config(productID)), price, weight, now, scoreNow, script)
      ensures rdb.configs == old(rdb.configs)
      ensures r.Err? ==> rdb.ranks == old(rdb.ranks) && rdb.bids == old(rdb.bids)
      ensures r.Ok? ==> rdb.Rank(productID) == ZSet.ZAdd(old(rdb.Rank(productID)), userID, r.value)
      ensures r.Ok? ==> rdb.Bids(productID) == old(rdb.Bids(productID))[userID :=
                          EncodeDetails(price, now - GetInt64(old(rdb.Config(productID)), "startTime", 0), weight)]
      ensures forall other :: other != productID && other in old(rdb.ranks) ==> other in rdb.ranks && rdb.ranks[other] == old(rdb.ranks[other])
      ensures forall other :: other != productID ==> rdb.Bids(other) == old(rdb.Bids(other))
    {
      var config := rdb.Config(productID);
      r := PlaceBidOutcome(config, price, weight, now, scoreNow, script);
      if r.Err? {
        return;
      }
      RecordBid(productID, userID, r.value, price, now - GetInt64(config, "startTime", 0), weight);
    }

    /** The two writes of an accepted bid: ZADD to the sorted set, then HSET of the details. */
    method RecordBid(productID: string, userID: string, score: real, price: real, reactionTime: int, weight: real)
      requires rdb.Valid()
      modifies rdb
      ensures rdb.Valid()
      ensures rdb.configs == old(rdb.configs)
      ensures rdb.Rank(productID) == ZSet.ZAdd(old(rdb.Rank(productID)), userID, score)
      ensures rdb.Bids(productID) == old(rdb.Bids(productID))[userID := EncodeDetails(price, reactionTime, weight)]
      ensures forall other :: other != productID && other in old(rdb.ranks) ==> other in rdb.ranks && rdb.ranks[other] == old(rdb.ranks[other])
      ensures forall other :: other != productID ==> rdb.Bids(other) == old(rdb.Bids(other))
    {
      rdb.AddScore(productID, userID, score);
      rdb.SetBid(productID, userID, EncodeDetails(price, reactionTime, weight));
    }

    /** getRawRankings: one item per entry of ZREVRANGE 0..k-1, ranked from 1. */
    method GetRawRankings(productID: string, k: int) returns (items: seq<RankingItem>)
      requires rdb.Valid()
      ensures items == RankingItems(ZSet.ZRevRange(rdb.Rank(productID), 0, k - 1), rdb.Bids(productID), users)
      ensures forall i :: 0 <= i < |items| ==> items[i].rank == i + 1
      ensures forall i, j :: 0 <= i <= j < |items| ==> items[i].score >= items[j].score
      ensures forall i, j :: 0 <= i < j < |items| ==> items[i].userID != items[j].userID
      ensures k >= 1 ==> |items| <= k
    {
      var window := ZSet.ZRevRange(rdb.Rank(productID), 0, k - 1);
      var bids := rdb.Bids(productID);
      items := [];
      var i := 0;
      while i < |window|
        invariant 0 <= i <= |window|
        invariant |items| == i
        invariant forall j :: 0 <= j < i ==> items[j] == MakeItem(j, window[j], bids, users)
      {
        var e := window[i];
        var d := DecodeDetails(DetailsOf(bids, e.member));
        items := items + [RankingItem(i + 1, e.member, DisplayName(e.member, users), d.price, d.reactionTime, d.weight, e.score)];
        i := i + 1;
      }
      assert items == RankingItems(window, bids, users);
      ZSet.WindowValid(rdb.Rank(productID), 0, k - 1);
      RankingItemsShape(window, bids, users);
      if k >= 1 { ZSet.TopWindow(rdb.Rank(productID), k); }
    }

    /** GetRankings: the top-k items, the threshold and currentHighestPrice (0 when absent). */
    method GetRankings(productID: string) returns (resp: RankingResponse)
      requires rdb.Valid()
      ensures var config := rdb.Config(productID);
              && resp.rankings == RankingItems(ZSet.ZRevRange(rdb.Rank(productID), 0, RankingK(config) - 1), rdb.Bids(productID), users)
              && |resp.rankings| <= RankingK(config)
              && resp.currentHighestPrice == HighestPrice(config)
      ensures resp.rankings == [] ==> resp.thresholdScore == 0.0
      ensures resp.rankings != [] ==> resp.thresholdScore == resp.rankings[|resp.rankings| - 1].score
      ensures forall i :: 0 <= i < |resp.rankings| ==> resp.rankings[i].score >= resp.thresholdScore
    {
      var config := rdb.Config(productID);
      var k := RankingK(config);
      var highest := HighestPrice(config);
      var items := GetRawRankings(productID, k);
      var threshold := Threshold(items, k);
      ThresholdIsLowestListed(items, k);
      resp := RankingResponse(items, threshold, highest);
    }

    /**
     * GetResults: refused unless the status is exactly "ended"; then one
     * winner per item of getRawRankings for the k parsed as written. It has
     * no threshold, so a stored k of 0 does not panic here: the window
     * 0..-1 makes every bidder a winner.
     */
    method GetResults(productID: string) returns (r: Result<seq<ResultItem>>)
      requires rdb.Valid()
      ensures r.Err? <==> StoredStatus(rdb.Config(productID)) != "ended"
      ensures r.Err? ==> r.error == AuctionNotEnded
      ensures r.Ok? ==>
                var items := RankingItems(ZSet.ZRevRange(rdb.Rank(productID), 0, RankingKAsWritten(rdb.Config(productID)) - 1), rdb.Bids(productID), users);
                && |r.value| == |items|
                && forall i :: 0 <= i < |items| ==>
                     && r.value[i].rank == items[i].rank == i + 1
                     && r.value[i].userID == items[i].userID
                     && r.value[i].displayName == items[i].displayName
                     && r.value[i].finalPrice == items[i].price
                     && r.value[i].finalScore == items[i].score
                     && r.value[i].isWinner
      ensures r.Ok? && RankingKAsWritten(rdb.Config(productID)) >= 1 ==> |r.value| <= RankingKAsWritten(rdb.Config(productID))
      ensures r.Ok? && RankingKAsWritten(rdb.Config(productID)) == 0 ==> |r.value| == |rdb.Rank(productID)|
    {
      var config := rdb.Config(productID);
      if StoredStatus(config) != "ended" {
        return Err(AuctionNotEnded);
      }
      var k := RankingKAsWritten(config);
      var items := GetRawRankings(productID, k);
      if k == 0 {
        ZSet.ZeroKWindowIsEverything(rdb.Rank(productID));
      }
      var results: seq<ResultItem> := [];
      var i := 0;
      while i < |items|
        invariant 0 <= i <= |items|
        invariant |results| == i
        invariant forall j :: 0 <= j < i ==> results[j] == ToResult(items[j])
      {
        results := results + [ToResult(items[i])];
        i := i + 1;
      }
      r := Ok(results);
    }
  }
}
