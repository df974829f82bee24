/**
 * The in-memory product service the front end runs without a backend: a
 * list of products, a leaderboard and a result list per product id, a
 * status tick, bids scored as price * weight - reactionTime, product
 * creation and shallow-merge updates.
 */
module MockProducts {
  import opened Common
  import opened GoText

  datatype Product = Product(
    id: string, title: string, description: string, basePrice: real, k: int,
    startTime: int, endTime: int, status: ProductStatus, currentHighestPrice: real,
    alpha: Option<real>, beta: Option<real>, gamma: Option<real>)

  /** What createProduct is given: a product without id, status and currentHighestPrice. */
  datatype NewProduct = NewProduct(
    title: string, description: string, basePrice: real, k: int, startTime: int, endTime: int,
    alpha: Option<real>, beta: Option<real>, gamma: Option<real>)

  /** A Partial<Product>: a Some field is supplied, a None field is absent. */
  datatype Patch = Patch(
    id: Option<string>, title: Option<string>, description: Option<string>, basePrice: Option<real>,
    k: Option<int>, startTime: Option<int>, endTime: Option<int>, status: Option<ProductStatus>,
    currentHighestPrice: Option<real>, alpha: Option<real>, beta: Option<real>, gamma: Option<real>)

  datatype RankingItem = RankingItem(
    rank: int, userId: string, displayName: string, price: real, reactionTime: real, weight: real, score: real)

  datatype ProductResult = ProductResult(
    rank: int, userId: string, displayName: string, finalPrice: real, finalScore: real, isWinner: bool)

  /** placeBid's three refusals, in the order they are checked. */
  datatype BidError = ProductNotFound | NotActive | BelowBasePrice

  datatype BidOutcome = Accepted | Refused(error: BidError)

  // -------------------------------------------------------------------
  // Lookups

  /** Array.prototype.findIndex on the product id: the first match. */
  function FindIndex(products: seq<Product>, id: string): (r: Option<nat>)
    ensures r.None? <==> forall i :: 0 <= i < |products| ==> products[i].id != id
    ensures r.Some? ==> r.value < |products| && products[r.value].id == id
    ensures r.Some? ==> forall i :: 0 <= i < r.value ==> products[i].id != id
  {
    if products == [] then None
    else if products[0].id == id then Some(0)
    else match FindIndex(products[1..], id)
      case None => None
      case Some(i) => Some(i + 1)
  }

  /** `products.find(p => p.id === id)?.basePrice || 1000`: a missing product or a zero base price gives 1000. */
  function BasePriceFor(products: seq<Product>, id: string): (b: real)
    ensures FindIndex(products, id).None? ==> b == 1000.0
    ensures FindIndex(products, id).Some? && products[FindIndex(products, id).value].basePrice != 0.0 ==>
              b == products[FindIndex(products, id).value].basePrice
    ensures b != 0.0
  {
    match FindIndex(products, id)
    case None => 1000.0
    case Some(i) => if products[i].basePrice != 0.0 then products[i].basePrice else 1000.0
  }

  /** Two product lists that agree on every id and base price give every id the same base price. */
  lemma {:induction false} BasePriceForSameIds(a: seq<Product>, b: seq<Product>, id: string)
    requires |a| == |b|
    requires forall i :: 0 <= i < |a| ==> a[i].id == b[i].id && a[i].basePrice == b[i].basePrice
    ensures FindIndex(a, id) == FindIndex(b, id)
    ensures BasePriceFor(a, id) == BasePriceFor(b, id)
  {
    if a != [] && a[0].id != id {
      BasePriceForSameIds(a[1..], b[1..], id);
    }
  }

  // -------------------------------------------------------------------
  // Generated leaderboards and results

  /** `user_${productId}_${n}`. */
  function MockUserId(productId: string, n: nat): string
  {
    "user_" + productId + "_" + FormatNat(n)
  }

  /** `User_***${String(n).padStart(4, '0')}`. */
  function MockDisplayName(n: nat): string
  {
    "User_***" + PadLeft(FormatNat(n), 4, '0')
  }

  /** A bid's score: the price weighted by the bidder's weight, less the reaction time. */
  function Score(price: real, weight: real, reactionTime: real): real
  {
    price * weight - reactionTime
  }

  /** The i-th generated bidder of a product with k places and the given base price. */
  function MockRanking(productId: string, k: int, basePrice: real, i: nat): (item: RankingItem)
    ensures item.rank == i + 1 && item.userId == MockUserId(productId, i + 1)
    ensures item.score == Score(item.price, item.weight, item.reactionTime)
  {
    var price := basePrice + (k - i) as real * 50.0;
    var reactionTime := 100.0 + i as real * 20.0;
    var weight := 1.0 + i as real * 0.1;
    RankingItem(i + 1, MockUserId(productId, i + 1), MockDisplayName(i + 1), price, reactionTime, weight,
                Score(price, weight, reactionTime))
  }

  function MockResult(productId: string, k: int, basePrice: real, i: nat): (r: ProductResult)
    ensures r.rank == i + 1 && r.isWinner
  {
    var finalPrice := basePrice + (k - i) as real * 50.0;
    ProductResult(i + 1, MockUserId(productId, i + 1), MockDisplayName(i + 1), finalPrice,
                  Score(finalPrice, 1.0 + i as real * 0.1, 100.0 + i as real * 20.0), true)
  }

  /** The k generated bidders (none when k <= 0). */
  function MockRankings(productId: string, k: int, basePrice: real): (r: seq<RankingItem>)
    ensures |r| == MaxInt(k, 0)
  {
    seq(MaxInt(k, 0), i requires 0 <= i => MockRanking(productId, k, basePrice, i))
  }

  function MockResults(productId: string, k: int, basePrice: real): (r: seq<ProductResult>)
    ensures |r| == MaxInt(k, 0)
  {
    seq(MaxInt(k, 0), i requires 0 <= i => MockResult(productId, k, basePrice, i))
  }

  lemma UserIdsDiffer(productId: string, m: nat, n: nat)
    requires m != n
    ensures MockUserId(productId, m) != MockUserId(productId, n)
  {
    var prefix := "user_" + productId + "_";
    if MockUserId(productId, m) == MockUserId(productId, n) {
      assert (prefix + FormatNat(m))[|prefix|..] == FormatNat(m);
      assert (prefix + FormatNat(n))[|prefix|..] == FormatNat(n);
      ParseFormatNat(m);
      ParseFormatNat(n);
    }
  }

  /**
   * The generated leaderboard is ranked 1..k with no gaps and scores each
   * bidder as price * weight - reactionTime.
   */
  lemma MockRankingsShape(productId: string, k: int, basePrice: real)
    ensures var r := MockRankings(productId, k, basePrice);
            && (forall i :: 0 <= i < |r| ==> r[i].rank == i + 1)
            && (forall i :: 0 <= i < |r| ==> r[i].score == Score(r[i].price, r[i].weight, r[i].reactionTime))
  {
    var r := MockRankings(productId, k, basePrice);
    forall i | 0 <= i < |r| ensures r[i].rank == i + 1 && r[i].score == Score(r[i].price, r[i].weight, r[i].reactionTime) {
      assert r[i] == MockRanking(productId, k, basePrice, i);
    }
  }

  /** The generated leaderboard names each bidder once. */
  lemma MockRankingsDistinct(productId: string, k: int, basePrice: real)
    ensures DistinctIds(MockRankings(productId, k, basePrice))
  {
    var r := MockRankings(productId, k, basePrice);
    forall i, j | 0 <= i < j < |r| ensures r[i].userId != r[j].userId {
      assert r[i].userId == MockUserId(productId, i + 1) && r[j].userId == MockUserId(productId, j + 1);
      UserIdsDiffer(productId, i + 1, j + 1);
    }
  }

  /** The generated results list the generated bidders in the same places, at the same prices and scores, all winners. */
  lemma MockResultsMatchRankings(productId: string, k: int, basePrice: real)
    ensures var r := MockRankings(productId, k, basePrice);
            var res := MockResults(productId, k, basePrice);
            && |res| == |r|
            && forall i :: 0 <= i < |r| ==>
                 && res[i].rank == r[i].rank && res[i].userId == r[i].userId && res[i].displayName == r[i].displayName
                 && res[i].finalPrice == r[i].price && res[i].finalScore == r[i].score && res[i].isWinner
  {
    var r := MockRankings(productId, k, basePrice);
    var res := MockResults(productId, k, basePrice);
    forall i | 0 <= i < |r|
      ensures && res[i].rank == r[i].rank && res[i].userId == r[i].userId && res[i].displayName == r[i].displayName
              && res[i].finalPrice == r[i].price && res[i].finalScore == r[i].score && res[i].isWinner
    {
      assert r[i] == MockRanking(productId, k, basePrice, i);
      assert res[i] == MockResult(productId, k, basePrice, i);
    }
  }

  // -------------------------------------------------------------------
  // The status tick

  /** The position of a status in the lifecycle. */
  function Stage(s: ProductStatus): nat
  {
    match s
    case NotStarted => 0
    case Active => 1
    case Ended => 2
  }

  /** One product in updateProductStatuses: at most one step, checked against the clock. */
  function Tick(p: Product, now: int): (q: Product)
    ensures q.(status := p.status) == p
  {
    if p.status == NotStarted && now >= p.startTime then p.(status := Active)
    else if p.status == Active && now >= p.endTime then p.(status := Ended)
    else p
  }

  /**
   * A tick moves a product at most one stage forward and never out of
   * ended; it starts a product exactly when its start time has come and
   * ends an active one exactly when its end time has come, even a
   * not-yet-started product whose end time has already passed only starts.
   */
  lemma TickSteps(p: Product, now: int)
    ensures Stage(Tick(p, now).status) == Stage(p.status) || Stage(Tick(p, now).status) == Stage(p.status) + 1
    ensures p.status == Ended ==> Tick(p, now).status == Ended
    ensures p.status == NotStarted ==> (Tick(p, now).status == Active <==> now >= p.startTime)
    ensures p.status == Active ==> (Tick(p, now).status == Ended <==> now >= p.endTime)
  {
  }

  /** The results map after the products of `ps` were ticked in order; `all` is the list the base prices come from. */
  function TickResults(ps: seq<Product>, all: seq<Product>, results: map<string, seq<ProductResult>>, now: int)
    : map<string, seq<ProductResult>>
  {
    if ps == [] then results
    else
      var before := TickResults(ps[..|ps| - 1], all, results, now);
      var p := ps[|ps| - 1];
      if p.status == Active && now >= p.endTime && p.id !in before then
        before[p.id := MockResults(p.id, p.k, BasePriceFor(all, p.id))]
      else before
  }

  /** Ticking one more product of the list. */
  lemma TickResultsStep(ps: seq<Product>, i: nat, results: map<string, seq<ProductResult>>, now: int)
    requires i < |ps|
    ensures var before := TickResults(ps[..i], ps, results, now);
            var p := ps[i];
            TickResults(ps[..i + 1], ps, results, now) ==
              if p.status == Active && now >= p.endTime && p.id !in before
              then before[p.id := MockResults(p.id, p.k, BasePriceFor(ps, p.id))]
              else before
  {
    assert ps[..i + 1][..i] == ps[..i];
  }

  /**
   * The tick never replaces results that exist, and every product it
   * ends has results afterwards; no other id gains an entry.
   */
  lemma {:induction false} TickResultsSpec(ps: seq<Product>, all: seq<Product>, results: map<string, seq<ProductResult>>, now: int)
    ensures var r := TickResults(ps, all, results, now);
            && (forall id :: id in results ==> id in r && r[id] == results[id])
            && (forall i :: 0 <= i < |ps| && ps[i].status == Active && now >= ps[i].endTime ==> ps[i].id in r)
            && (forall id :: id in r && id !in results ==>
                  exists i :: 0 <= i < |ps| && ps[i].id == id && Tick(ps[i], now).status == Ended && ps[i].status == Active)
  {
    if ps != [] {
      var init := ps[..|ps| - 1];
      TickResultsSpec(init, all, results, now);
      var before := TickResults(init, all, results, now);
      var r := TickResults(ps, all, results, now);
      forall i | 0 <= i < |ps| && ps[i].status == Active && now >= ps[i].endTime ensures ps[i].id in r {
        if i < |ps| - 1 { assert ps[i] == init[i]; }
      }
      forall id | id in r && id !in results
        ensures exists i :: 0 <= i < |ps| && ps[i].id == id && Tick(ps[i], now).status == Ended && ps[i].status == Active
      {
        if id in before {
          var i :| 0 <= i < |init| && init[i].id == id && Tick(init[i], now).status == Ended && init[i].status == Active;
          assert ps[i] == init[i];
        } else {
          assert ps[|ps| - 1].id == id;
        }
      }
    }
  }

  // -------------------------------------------------------------------
  // A bid on the stored leaderboard

  predicate DistinctIds(s: seq<RankingItem>)
  {
    forall i, j :: 0 <= i < j < |s| ==> s[i].userId != s[j].userId
  }

  predicate SortedByScore(s: seq<RankingItem>)
  {
    forall i, j :: 0 <= i < j < |s| ==> s[i].score >= s[j].score
  }

  /** Array.prototype.find on the user id: the first entry of that user. */
  function FindUser(s: seq<RankingItem>, userId: string): (r: Option<nat>)
    ensures r.None? <==> forall i :: 0 <= i < |s| ==> s[i].userId != userId
    ensures r.Some? ==> r.value < |s| && s[r.value].userId == userId
  {
    if s == [] then None
    else if s[0].userId == userId then Some(0)
    else match FindUser(s[1..], userId)
      case None => None
      case Some(i) => Some(i + 1)
  }

  /** `userId.slice(-4)`: the last four characters, or all of a shorter id. */
  function LastFour(s: string): (r: string)
    ensures |r| == MinInt(|s|, 4) && r == s[|s| - |r|..]
  {
    if |s| >= 4 then s[|s| - 4..] else s
  }

  /**
   * The bidder's entry after a bid: a known bidder keeps weight and
   * reaction time and gets the new price and score; a new bidder is
   * appended with weight 1.2 and the given reaction time.
   */
  function Upsert(s: seq<RankingItem>, userId: string, price: real, reactionTime: real): (r: seq<RankingItem>)
  {
    var found := FindUser(s, userId);
    if found.Some? then
      var j := found.value;
      s[j := s[j].(price := price, score := Score(price, s[j].weight, s[j].reactionTime))]
    else
      s + [RankingItem(|s| + 1, userId, "User_***" + LastFour(userId), price, reactionTime, 1.2, Score(price, 1.2, reactionTime))]
  }

  /**
   * Upsert never duplicates a bidder: the bidder ends up with exactly one
   * entry, at the new price, scored as price * weight - reactionTime; every
   * other entry stays as it was, and the list grows only for a new bidder,
   * who gets weight 1.2 and the given reaction time.
   */
  lemma UpsertSpec(s: seq<RankingItem>, userId: string, price: real, reactionTime: real)
    requires DistinctIds(s)
    ensures var r := Upsert(s, userId, price, reactionTime);
            && DistinctIds(r)
            && (exists j :: 0 <= j < |r| && r[j].userId == userId)
            && (forall j :: 0 <= j < |r| && r[j].userId == userId ==>
                  r[j].price == price && r[j].score == Score(price, r[j].weight, r[j].reactionTime))
            && (forall e :: e in s && e.userId != userId ==> e in r)
            && (forall e :: e in r && e.userId != userId ==> e in s)
    ensures FindUser(s, userId).Some? ==> |Upsert(s, userId, price, reactionTime)| == |s|
    ensures FindUser(s, userId).None? ==>
              var r := Upsert(s, userId, price, reactionTime);
              |r| == |s| + 1 && r[|s|].weight == 1.2 && r[|s|].reactionTime == reactionTime
  {
    var r := Upsert(s, userId, price, reactionTime);
    if FindUser(s, userId).Some? {
      var j := FindUser(s, userId).value;
      UpsertKnown(s, userId, price, reactionTime, j);
      assert r[j].userId == userId;
    } else {
      UpsertNew(s, userId, price, reactionTime);
      assert r[|s|].userId == userId;
    }
  }

  lemma UpsertKnown(s: seq<RankingItem>, userId: string, price: real, reactionTime: real, j: nat)
    requires DistinctIds(s) && FindUser(s, userId) == Some(j)
    ensures var r := Upsert(s, userId, price, reactionTime);
            && r == s[j := s[j].(price := price, score := Score(price, s[j].weight, s[j].reactionTime))]
            && DistinctIds(r)
            && r[j].userId == userId
            && (forall i :: 0 <= i < |r| && r[i].userId == userId ==> i == j)
            && (forall e :: e in s && e.userId != userId ==> e in r)
            && (forall e :: e in r && e.userId != userId ==> e in s)
  {
    var r := Upsert(s, userId, price, reactionTime);
    var e := s[j].(price := price, score := Score(price, s[j].weight, s[j].reactionTime));
    assert |r| == |s| && r[j] == e;
    assert forall i :: 0 <= i < |s| && i != j ==> r[i] == s[i];
    assert r == s[j := e];
    forall e | e in s && e.userId != userId ensures e in r {
      var i :| 0 <= i < |s| && s[i] == e;
      assert r[i] == e;
    }
    forall e | e in r && e.userId != userId ensures e in s {
      var i :| 0 <= i < |r| && r[i] == e;
      assert s[i] == e;
    }
  }

  lemma UpsertNew(s: seq<RankingItem>, userId: string, price: real, reactionTime: real)
    requires DistinctIds(s) && FindUser(s, userId).None?
    ensures var r := Upsert(s, userId, price, reactionTime);
            && r == s + [r[|s|]]
            && DistinctIds(r)
            && r[|s|].userId == userId && r[|s|].price == price && r[|s|].weight == 1.2 && r[|s|].reactionTime == reactionTime
            && r[|s|].score == Score(price, 1.2, reactionTime)
            && (forall i :: 0 <= i < |r| && r[i].userId == userId ==> i == |s|)
            && (forall e :: e in r && e.userId != userId ==> e in s)
  {
    var r := Upsert(s, userId, price, reactionTime);
    forall e | e in r && e.userId != userId ensures e in s {
      var i :| 0 <= i < |r| && r[i] == e;
      assert s[i] == e;
    }
  }

  /** Places x after every entry scoring at least as much, as a stable sort does. */
  function InsertByScore(sorted: seq<RankingItem>, x: RankingItem): (r: seq<RankingItem>)
    ensures |r| == |sorted| + 1
  {
    if sorted == [] then [x]
    else if sorted[0].score >= x.score then [sorted[0]] + InsertByScore(sorted[1..], x)
    else [x] + sorted
  }

  /** Inserting adds exactly x. */
  lemma {:induction false} InsertByScoreCounts(sorted: seq<RankingItem>, x: RankingItem)
    ensures multiset(InsertByScore(sorted, x)) == multiset(sorted) + multiset{x}
  {
    if sorted != [] && sorted[0].score >= x.score {
      InsertByScoreCounts(sorted[1..], x);
      assert sorted == [sorted[0]] + sorted[1..];
    }
  }

  /** Inserting into a list sorted by score keeps it sorted. */
  lemma {:induction false} InsertByScoreSorted(sorted: seq<RankingItem>, x: RankingItem)
    requires SortedByScore(sorted)
    ensures SortedByScore(InsertByScore(sorted, x))
  {
    if sorted != [] && sorted[0].score >= x.score {
      var rest := InsertByScore(sorted[1..], x);
      InsertByScoreSorted(sorted[1..], x);
      InsertMembers(sorted[1..], x);
      var r := [sorted[0]] + rest;
      forall j | 0 < j < |r| ensures sorted[0].score >= r[j].score {
        assert r[j] == rest[j - 1];
        assert r[j] in rest;
        if r[j] != x {
          var m :| 0 <= m < |sorted[1..]| && sorted[1..][m] == r[j];
          assert sorted[m + 1] == r[j];
        }
      }
      forall i, j | 0 < i < j < |r| ensures r[i].score >= r[j].score {
        assert r[i] == rest[i - 1] && r[j] == rest[j - 1];
      }
    } else if sorted != [] {
      var r := [x] + sorted;
      forall i, j | 0 <= i < j < |r| ensures r[i].score >= r[j].score {
        if i > 0 { assert r[i] == sorted[i - 1]; }
        assert r[j] == sorted[j - 1];
      }
    }
  }

  /** `rankings.sort((a, b) => b.score - a.score)`: a stable sort, highest score first. */
  function SortByScore(s: seq<RankingItem>): (r: seq<RankingItem>)
    ensures |r| == |s|
    ensures SortedByScore(r)
    ensures multiset(r) == multiset(s)
    ensures forall y :: y in r <==> y in s
  {
    if s == [] then []
    else
      var init := s[..|s| - 1];
      assert s == init + [s[|s| - 1]];
      var sortedInit := SortByScore(init);
      InsertByScoreSorted(sortedInit, s[|s| - 1]);
      InsertByScoreCounts(sortedInit, s[|s| - 1]);
      InsertMembers(sortedInit, s[|s| - 1]);
      InsertByScore(sortedInit, s[|s| - 1])
  }

  /** Sorting keeps bidders distinct. */
  lemma {:induction false} SortKeepsDistinct(s: seq<RankingItem>)
    requires DistinctIds(s)
    ensures DistinctIds(SortByScore(s))
  {
    if s != [] {
      var init := s[..|s| - 1];
      var x := s[|s| - 1];
      SortKeepsDistinct(init);
      var si := SortByScore(init);
      forall y | y in si ensures y.userId != x.userId {
        var m :| 0 <= m < |init| && init[m] == y;
        assert s[m] == y;
      }
      InsertKeepsDistinct(si, x);
    }
  }

  lemma {:induction false} InsertKeepsDistinct(sorted: seq<RankingItem>, x: RankingItem)
    requires DistinctIds(sorted) && forall y :: y in sorted ==> y.userId != x.userId
    ensures DistinctIds(InsertByScore(sorted, x))
  {
    if sorted != [] {
      var r := InsertByScore(sorted, x);
      if sorted[0].score >= x.score {
        var rest := InsertByScore(sorted[1..], x);
        InsertKeepsDistinct(sorted[1..], x);
        InsertMembers(sorted[1..], x);
        forall j | 0 < j < |r| ensures r[j].userId != sorted[0].userId {
          assert r[j] == rest[j - 1];
          assert r[j] in rest;
          if r[j] != x {
            var m :| 0 <= m < |sorted[1..]| && sorted[1..][m] == r[j];
            assert sorted[m + 1] == r[j];
          }
        }
      } else {
        forall i, j | 0 <= i < j < |r| ensures r[i].userId != r[j].userId {
          if i > 0 { assert r[i] == sorted[i - 1]; }
          assert r[j] == sorted[j - 1];
        }
      }
    }
  }

  lemma {:induction false} InsertMembers(sorted: seq<RankingItem>, x: RankingItem)
    ensures forall y :: y in InsertByScore(sorted, x) <==> y in sorted || y == x
  {
    if sorted != [] && sorted[0].score >= x.score {
      InsertMembers(sorted[1..], x);
      assert sorted == [sorted[0]] + sorted[1..];
    }
  }

  /** `rankings.forEach((r, i) => { r.rank = i + 1 })`. */
  function Reranked(s: seq<RankingItem>): (r: seq<RankingItem>)
    ensures |r| == |s|
  {
    seq(|s|, i requires 0 <= i < |s| => s[i].(rank := i + 1))
  }

  /** `s.slice(0, k)`: a negative k counts from the end. */
  function SliceTo(s: seq<RankingItem>, k: int): (r: seq<RankingItem>)
    ensures k >= 0 ==> |r| == MinInt(k, |s|)
    ensures k < 0 ==> |r| == MaxInt(|s| + k, 0)
    ensures r == s[..|r|]
  {
    if k >= 0 then s[..MinInt(k, |s|)] else s[..MaxInt(|s| + k, 0)]
  }

  /** The stored leaderboard after an accepted bid. */
  function BidRankings(s: seq<RankingItem>, userId: string, price: real, reactionTime: real, k: int): seq<RankingItem>
  {
    SliceTo(Reranked(SortByScore(Upsert(s, userId, price, reactionTime))), k)
  }

  /** Entry i of a re-ranked prefix is entry i of the list with rank i + 1. */
  lemma RerankedPrefix(sorted: seq<RankingItem>, k: int)
    ensures var r := SliceTo(Reranked(sorted), k);
            && |r| <= |sorted|
            && forall i :: 0 <= i < |r| ==> r[i] == sorted[i].(rank := i + 1)
  {
    var ranked := Reranked(sorted);
    var r := SliceTo(ranked, k);
    assert forall i :: 0 <= i < |r| ==> r[i] == ranked[i];
  }

  /**
   * After an accepted bid the stored leaderboard is sorted by score from
   * high to low, ranked 1..n without gaps, and at most k long (and as long
   * as there are bidders, up to k).
   */
  lemma BidRankingsOrder(s: seq<RankingItem>, userId: string, price: real, reactionTime: real, k: int)
    ensures var u := Upsert(s, userId, price, reactionTime);
            var r := BidRankings(s, userId, price, reactionTime, k);
            && SortedByScore(r)
            && (forall i :: 0 <= i < |r| ==> r[i].rank == i + 1)
            && (k >= 0 ==> |r| == MinInt(k, |u|))
  {
    var u := Upsert(s, userId, price, reactionTime);
    var sorted := SortByScore(u);
    RerankedPrefix(sorted, k);
    var r := SliceTo(Reranked(sorted), k);
    assert r == BidRankings(s, userId, price, reactionTime, k);
    forall i, j | 0 <= i < j < |r| ensures r[i].score >= r[j].score {
      assert r[i].score == sorted[i].score && r[j].score == sorted[j].score;
    }
  }

  /**
   * After an accepted bid the stored leaderboard names each bidder once
   * and holds only entries of the old leaderboard and the bidder's new
   * one; the bidder's entry, if it made the cut, has the new price.
   */
  lemma BidRankingsEntries(s: seq<RankingItem>, userId: string, price: real, reactionTime: real, k: int)
    requires DistinctIds(s)
    ensures var u := Upsert(s, userId, price, reactionTime);
            var r := BidRankings(s, userId, price, reactionTime, k);
            && DistinctIds(r)
            && (forall i :: 0 <= i < |r| ==> exists j :: 0 <= j < |u| && r[i] == u[j].(rank := i + 1))
            && (forall i :: 0 <= i < |r| && r[i].userId == userId ==> r[i].price == price)
  {
    var u := Upsert(s, userId, price, reactionTime);
    UpsertSpec(s, userId, price, reactionTime);
    var sorted := SortByScore(u);
    SortKeepsDistinct(u);
    RerankedPrefix(sorted, k);
    var r := SliceTo(Reranked(sorted), k);
    assert r == BidRankings(s, userId, price, reactionTime, k);
    forall i, j | 0 <= i < j < |r| ensures r[i].userId != r[j].userId {
      assert r[i].userId == sorted[i].userId && r[j].userId == sorted[j].userId;
    }
    forall i | 0 <= i < |r| ensures exists j :: 0 <= j < |u| && r[i] == u[j].(rank := i + 1) {
      assert sorted[i] in u;
      var j :| 0 <= j < |u| && u[j] == sorted[i];
    }
    forall i | 0 <= i < |r| && r[i].userId == userId ensures r[i].price == price {
      assert sorted[i] in u;
    }
  }

  // -------------------------------------------------------------------
  // Bid checks and the highest price

  /** placeBid's checks, in order: unknown product, not active, below the base price. */
  function CheckBid(products: seq<Product>, productId: string, price: real): (o: BidOutcome)
    ensures o == Refused(ProductNotFound) <==> FindIndex(products, productId).None?
    ensures o == Refused(NotActive) <==>
              FindIndex(products, productId).Some? && products[FindIndex(products, productId).value].status != Active
    ensures o == Refused(BelowBasePrice) <==>
              && FindIndex(products, productId).Some?
              && products[FindIndex(products, productId).value].status == Active
              && price < products[FindIndex(products, productId).value].basePrice
    ensures o == Accepted <==>
              && FindIndex(products, productId).Some?
              && products[FindIndex(products, productId).value].status == Active
              && price >= products[FindIndex(products, productId).value].basePrice
  {
    match FindIndex(products, productId)
    case None => Refused(ProductNotFound)
    case Some(i) =>
      if products[i].status != Active then Refused(NotActive)
      else if price < products[i].basePrice then Refused(BelowBasePrice)
      else Accepted
  }

  /** An accepted bid raises the highest price when it is higher, and changes nothing else of the product. */
  function RaiseHighest(p: Product, price: real): (q: Product)
    ensures q.currentHighestPrice >= p.currentHighestPrice && q.currentHighestPrice >= price
    ensures q.currentHighestPrice == p.currentHighestPrice || q.currentHighestPrice == price
    ensures q.(currentHighestPrice := p.currentHighestPrice) == p
  {
    if price > p.currentHighestPrice then p.(currentHighestPrice := price) else p
  }

  /** Any run of accepted bids leaves the highest price at the largest of the start value and every price bid. */
  function RaiseAll(p: Product, prices: seq<real>): Product
  {
    if prices == [] then p else RaiseHighest(RaiseAll(p, prices[..|prices| - 1]), prices[|prices| - 1])
  }

  lemma {:induction false} RaiseAllIsMaximum(p: Product, prices: seq<real>)
    ensures var q := RaiseAll(p, prices);
            && q.currentHighestPrice >= p.currentHighestPrice
            && (forall i :: 0 <= i < |prices| ==> q.currentHighestPrice >= prices[i])
            && (q.currentHighestPrice == p.currentHighestPrice || exists i :: 0 <= i < |prices| && q.currentHighestPrice == prices[i])
            && q.(currentHighestPrice := p.currentHighestPrice) == p
  {
    if prices != [] {
      var init := prices[..|prices| - 1];
      RaiseAllIsMaximum(p, init);
      var q := RaiseAll(p, prices);
      forall i | 0 <= i < |prices| ensures q.currentHighestPrice >= prices[i] {
        if i < |init| { assert prices[i] == init[i]; }
      }
      var before := RaiseAll(p, init);
      if q.currentHighestPrice != p.currentHighestPrice && q.currentHighestPrice != prices[|prices| - 1] {
        var i :| 0 <= i < |init| && before.currentHighestPrice == init[i];
        assert q.currentHighestPrice == prices[i];
      }
    }
  }

  /** `productRankings.get(id) || []`: a stored list, even an empty one, or [] for an id with none. */
  function StoredRankings(rankings: map<string, seq<RankingItem>>, productId: string): seq<RankingItem>
  {
    if productId in rankings then rankings[productId] else []
  }

  /**
   * The mock leaderboards are not ordered by score: in the seeded product
   * "1" (base price 1000, five places) second place outscores first, so
   * the first accepted bid re-orders bidders who did not bid.
   */
  lemma MockRankingsNotByScore()
    ensures var r := MockRankings("1", 5, 1000.0);
            |r| == 5 && r[0].score == 1150.0 && r[1].score == 1200.0 && !SortedByScore(r)
  {
    var r := MockRankings("1", 5, 1000.0);
    assert r[0] == MockRanking("1", 5, 1000.0, 0) && r[1] == MockRanking("1", 5, 1000.0, 1);
  }

  // -------------------------------------------------------------------
  // Product creation

  /** createProduct's status from the time window: ended, active or not started. */
  function CreatedStatus(startTime: int, endTime: int, now: int): (s: ProductStatus)
  {
    if now >= startTime then (if now >= endTime then Ended else Active) else NotStarted
  }

  /** The time window decides the status: not started before the start, ended at or after both times, active between. */
  lemma CreatedStatusSpec(startTime: int, endTime: int, now: int)
    ensures CreatedStatus(startTime, endTime, now) == NotStarted <==> now < startTime
    ensures CreatedStatus(startTime, endTime, now) == Active <==> startTime <= now < endTime
    ensures CreatedStatus(startTime, endTime, now) == Ended <==> now >= startTime && now >= endTime
  {
  }

  /** The product createProduct builds at clock reading `now`. */
  function NewProductRecord(input: NewProduct, now: int): (p: Product)
    ensures p.id == "product_" + FormatInt(now)
    ensures p.currentHighestPrice == p.basePrice
  {
    Product("product_" + FormatInt(now), input.title, input.description, input.basePrice, input.k,
            input.startTime, input.endTime, CreatedStatus(input.startTime, input.endTime, now),
            input.basePrice, input.alpha, input.beta, input.gamma)
  }

  /** The fields a caller of createProduct supplies. */
  function Draft(p: Product): NewProduct
  {
    NewProduct(p.title, p.description, p.basePrice, p.k, p.startTime, p.endTime, p.alpha, p.beta, p.gamma)
  }

  /**
   * createProduct keeps every supplied field, and its product is already
   * where a status tick at the same clock reading would leave it.
   */
  lemma NewProductRecordSpec(input: NewProduct, now: int)
    ensures Draft(NewProductRecord(input, now)) == input
    ensures Tick(NewProductRecord(input, now), now) == NewProductRecord(input, now)
  {
  }

  /** Appending a product whose id is not yet taken makes its own base price (or 1000 for zero) the one the generators use. */
  lemma {:induction false} BasePriceForAppended(ps: seq<Product>, p: Product)
    ensures FindIndex(ps, p.id).None? ==>
              FindIndex(ps + [p], p.id) == Some(|ps|) &&
              BasePriceFor(ps + [p], p.id) == (if p.basePrice != 0.0 then p.basePrice else 1000.0)
    ensures FindIndex(ps, p.id).Some? ==>
              FindIndex(ps + [p], p.id) == FindIndex(ps, p.id) && BasePriceFor(ps + [p], p.id) == BasePriceFor(ps, p.id)
  {
    if ps != [] {
      BasePriceForAppended(ps[1..], p);
      assert (ps + [p])[1..] == ps[1..] + [p];
    }
  }

  // -------------------------------------------------------------------
  // Shallow-merge updates

  /** `{ ...p, ...updates }`: every supplied field replaces the product's. */
  function ApplyPatch(p: Product, u: Patch): (q: Product)
  {
    Product(
      if u.id.Some? then u.id.value else p.id,
      if u.title.Some? then u.title.value else p.title,
      if u.description.Some? then u.description.value else p.description,
      if u.basePrice.Some? then u.basePrice.value else p.basePrice,
      if u.k.Some? then u.k.value else p.k,
      if u.startTime.Some? then u.startTime.value else p.startTime,
      if u.endTime.Some? then u.endTime.value else p.endTime,
      if u.status.Some? then u.status.value else p.status,
      if u.currentHighestPrice.Some? then u.currentHighestPrice.value else p.currentHighestPrice,
      if u.alpha.Some? then u.alpha else p.alpha,
      if u.beta.Some? then u.beta else p.beta,
      if u.gamma.Some? then u.gamma else p.gamma)
  }

  /** The patch that supplies nothing. */
  const NoChanges := Patch(None, None, None, None, None, None, None, None, None, None, None, None)

  /** `{ ...u, ...v }`: v's supplied fields win. */
  function MergePatches(u: Patch, v: Patch): Patch
  {
    Patch(
      if v.id.Some? then v.id else u.id,
      if v.title.Some? then v.title else u.title,
      if v.description.Some? then v.description else u.description,
      if v.basePrice.Some? then v.basePrice else u.basePrice,
      if v.k.Some? then v.k else u.k,
      if v.startTime.Some? then v.startTime else u.startTime,
      if v.endTime.Some? then v.endTime else u.endTime,
      if v.status.Some? then v.status else u.status,
      if v.currentHighestPrice.Some? then v.currentHighestPrice else u.currentHighestPrice,
      if v.alpha.Some? then v.alpha else u.alpha,
      if v.beta.Some? then v.beta else u.beta,
      if v.gamma.Some? then v.gamma else u.gamma)
  }

  /**
   * Merging in nothing changes nothing, merging the same patch twice is
   * merging it once, and two merges in a row are one merge of the merged
   * patch, so no order of updates loses a field.
   */
  lemma ApplyPatchLaws(p: Product, u: Patch, v: Patch)
    ensures ApplyPatch(p, NoChanges) == p
    ensures ApplyPatch(ApplyPatch(p, u), u) == ApplyPatch(p, u)
    ensures ApplyPatch(ApplyPatch(p, u), v) == ApplyPatch(p, MergePatches(u, v))
  {
  }

  /** updateProductStatus's patch `{ status }`. */
  function StatusPatch(status: ProductStatus): Patch
  {
    NoChanges.(status := Some(status))
  }

  /** A status update changes the status and nothing else, even the highest price stays. */
  lemma StatusPatchOnlyStatus(p: Product, status: ProductStatus)
    ensures ApplyPatch(p, StatusPatch(status)) == p.(status := status)
  {
  }

  // -------------------------------------------------------------------
  // The seeded catalogue

  /** The three products initializeMockData seeds, relative to the clock reading `now`. */
  function MockCatalog(now: int): (ps: seq<Product>)
    ensures |ps| == 3
  {
    var oneHour := 60 * 60 * 1000;
    var twoHours := 2 * 60 * 60 * 1000;
    [ Product("1", "限量藍芽耳機", "高品質無線藍芽耳機，降噪功能強大", 1000.0, 5, now - oneHour, now + oneHour,
              Active, 1200.0, Some(1.0), Some(0.5), Some(0.3)),
      Product("2", "智能手錶", "多功能智能手錶，健康監測", 2000.0, 3, now + oneHour, now + twoHours,
              NotStarted, 2000.0, Some(1.0), Some(0.5), Some(0.3)),
      Product("3", "無線充電器", "快速無線充電，支援多設備", 500.0, 10, now - twoHours, now - oneHour,
              Ended, 800.0, Some(1.0), Some(0.5), Some(0.3)) ]
  }

  /** The leaderboards seeded for the products of `ps`, in order; `all` is the list the base prices come from. */
  function SeedRankings(ps: seq<Product>, all: seq<Product>): map<string, seq<RankingItem>>
  {
    if ps == [] then map[]
    else
      var p := ps[|ps| - 1];
      SeedRankings(ps[..|ps| - 1], all)[p.id := MockRankings(p.id, p.k, BasePriceFor(all, p.id))]
  }

  /** The results seeded for the ended products of `ps`. */
  function SeedResults(ps: seq<Product>, all: seq<Product>): map<string, seq<ProductResult>>
  {
    if ps == [] then map[]
    else
      var p := ps[|ps| - 1];
      var before := SeedResults(ps[..|ps| - 1], all);
      if p.status == Ended then before[p.id := MockResults(p.id, p.k, BasePriceFor(all, p.id))] else before
  }

  /** Every seeded leaderboard names each bidder once. */
  lemma {:induction false} SeedRankingsDistinct(ps: seq<Product>, all: seq<Product>)
    ensures forall id :: id in SeedRankings(ps, all) ==> DistinctIds(SeedRankings(ps, all)[id])
  {
    if ps != [] {
      var p := ps[|ps| - 1];
      SeedRankingsDistinct(ps[..|ps| - 1], all);
      MockRankingsDistinct(p.id, p.k, BasePriceFor(all, p.id));
    }
  }

  /** Seeded from the catalogue: a leaderboard for every product and results for the ended one, "3", only. */
  lemma SeededCatalog(now: int)
    ensures var c := MockCatalog(now);
            && SeedRankings(c, c).Keys == {"1", "2", "3"}
            && SeedRankings(c, c)["1"] == MockRankings("1", 5, 1000.0)
            && SeedRankings(c, c)["2"] == MockRankings("2", 3, 2000.0)
            && SeedRankings(c, c)["3"] == MockRankings("3", 10, 500.0)
            && SeedResults(c, c) == map["3" := MockResults("3", 10, 500.0)]
  {
    var c := MockCatalog(now);
    CatalogPrices(now);
    var a := [c[0]];
    var b := [c[0], c[1]];
    assert c[..2] == b && b[..1] == a && a[..0] == [];
    assert SeedRankings(a, c) == map["1" := MockRankings("1", 5, 1000.0)];
    assert SeedRankings(b, c) == map["1" := MockRankings("1", 5, 1000.0), "2" := MockRankings("2", 3, 2000.0)];
    assert SeedResults(a, c) == map[];
    assert SeedResults(b, c) == map[];
  }

  /** Every catalogue product is found under its own id, so each keeps its own base price. */
  lemma CatalogPrices(now: int)
    ensures var c := MockCatalog(now);
            && BasePriceFor(c, "1") == 1000.0 && BasePriceFor(c, "2") == 2000.0 && BasePriceFor(c, "3") == 500.0
  {
    var c := MockCatalog(now);
    assert c[1..] == [c[1], c[2]] && c[1..][1..] == [c[2]];
    assert FindIndex(c[1..][1..], "3") == Some(0);
    assert FindIndex(c[1..], "2") == Some(0);
    assert FindIndex(c[1..], "3") == Some(1);
  }

  /** `rankings.forEach((r, i) => { r.rank = i + 1 })`, one entry at a time. */
  method Rerank(sorted: seq<RankingItem>) returns (ranked: seq<RankingItem>)
    ensures ranked == Reranked(sorted)
  {
    ranked := sorted;
    var j := 0;
    while j < |ranked|
      invariant |ranked| == |sorted| && 0 <= j <= |ranked|
      invariant forall m :: 0 <= m < j ==> ranked[m] == sorted[m].(rank := m + 1)
      invariant forall m :: j <= m < |ranked| ==> ranked[m] == sorted[m]
    {
      ranked := ranked[j := ranked[j].(rank := j + 1)];
      j := j + 1;
    }
  }

  /** placeBid's leaderboard step: upsert the bidder, sort by score, re-rank, keep the first k. */
  method RankTopK(current: seq<RankingItem>, userId: string, price: real, reactionTime: real, k: int)
    returns (top: seq<RankingItem>)
    ensures top == BidRankings(current, userId, price, reactionTime, k)
  {
    var sorted := SortByScore(Upsert(current, userId, price, reactionTime));
    var ranked := Rerank(sorted);
    top := SliceTo(ranked, k);
  }

  lemma BidRankingsDistinct(s: seq<RankingItem>, userId: string, price: real, reactionTime: real, k: int)
    requires DistinctIds(s)
    ensures DistinctIds(BidRankings(s, userId, price, reactionTime, k))
  {
    BidRankingsEntries(s, userId, price, reactionTime, k);
  }

  /** Every product of the list after one tick. */
  function Ticked(ps: seq<Product>, now: int): (r: seq<Product>)
    ensures |r| == |ps|
  {
    seq(|ps|, i requires 0 <= i < |ps| => Tick(ps[i], now))
  }

  /** The list part-way through a tick: the first i products ticked, the rest as they were. */
  lemma TickedPrefixStep(ps: seq<Product>, i: nat, now: int)
    requires i < |ps|
    ensures var cur := Ticked(ps, now)[..i] + ps[i..];
            && |cur| == |ps| && cur[i] == ps[i]
            && cur[i := Tick(ps[i], now)] == Ticked(ps, now)[..i + 1] + ps[i + 1..]
            && (Tick(ps[i], now) == ps[i] ==> cur == Ticked(ps, now)[..i + 1] + ps[i + 1..])
  {
    var cur := Ticked(ps, now)[..i] + ps[i..];
    var next := Ticked(ps, now)[..i + 1] + ps[i + 1..];
    assert |next| == |cur|;
    forall j | 0 <= j < |cur| ensures cur[i := Tick(ps[i], now)][j] == next[j] {
      if j < i {
        assert cur[j] == Ticked(ps, now)[j] == next[j];
      } else if j > i {
        assert cur[j] == ps[j] == next[j];
      }
    }
  }

  /** A part-ticked list gives every id the base price the list had before the tick. */
  lemma BasePriceForPartlyTicked(ps: seq<Product>, i: nat, now: int, id: string)
    requires i <= |ps|
    ensures BasePriceFor(Ticked(ps, now)[..i] + ps[i..], id) == BasePriceFor(ps, id)
  {
    var cur := Ticked(ps, now)[..i] + ps[i..];
    forall j | 0 <= j < |cur| ensures cur[j].id == ps[j].id && cur[j].basePrice == ps[j].basePrice {
      if j < i {
        assert cur[j] == Tick(ps[j], now);
      } else {
        assert cur[j] == ps[j];
      }
    }
    BasePriceForSameIds(cur, ps, id);
  }

  // -------------------------------------------------------------------
  // The service

  class Service {
    var products: seq<Product>
    var rankings: map<string, seq<RankingItem>>
    var results: map<string, seq<ProductResult>>

    /** Every stored leaderboard names each bidder once. */
    ghost predicate Valid()
      reads this
    {
      forall id :: id in rankings ==> DistinctIds(rankings[id])
    }

    /** getProductById: the first product with the id. */
    function GetProductById(id: string): (r: Option<Product>)
      reads this
      ensures r.None? <==> forall i :: 0 <= i < |products| ==> products[i].id != id
      ensures r.Some? ==> r.value.id == id && r.value in products
    {
      match FindIndex(products, id)
      case None => None
      case Some(i) => Some(products[i])
    }

    /** getProductRankings: the stored leaderboard, or [] for a product without one. */
    function GetProductRankings(productId: string): (r: seq<RankingItem>)
      reads this
      ensures productId in rankings ==> r == rankings[productId]
      ensures productId !in rankings ==> r == []
    {
      StoredRankings(rankings, productId)
    }

    /** getProductResults: the stored results, or [] for a product without any. */
    function GetProductResults(productId: string): (r: seq<ProductResult>)
      reads this
      ensures productId in results ==> r == results[productId]
      ensures productId !in results ==> r == []
    {
      if productId in results then results[productId] else []
    }

    /**
     * initializeMockData at clock reading `now`: the three catalogue
     * products, a generated leaderboard for each and generated results for
     * the one that has ended.
     */
    constructor(now: int)
      ensures products == MockCatalog(now)
      ensures rankings == SeedRankings(products, products)
      ensures results == SeedResults(products, products)
      ensures Valid()
    {
      products := MockCatalog(now);
      rankings := map[];
      results := map[];
      new;
      SeedAll();
      SeedRankingsDistinct(products, products);
    }

    /** initializeMockData's forEach: a leaderboard for every product, results for every ended one. */
    method SeedAll()
      requires rankings == map[] && results == map[]
      modifies this
      ensures products == old(products)
      ensures rankings == SeedRankings(products, products)
      ensures results == SeedResults(products, products)
    {
      var i := 0;
      while i < |products|
        invariant 0 <= i <= |products| && products == old(products)
        invariant rankings == SeedRankings(products[..i], products)
        invariant results == SeedResults(products[..i], products)
      {
        var p := products[i];
        assert products[..i + 1][..i] == products[..i];
        var r := GenerateMockRankings(p.id, p.k);
        rankings := rankings[p.id := r];
        if p.status == Ended {
          var res := GenerateMockResults(p.id, p.k);
          results := results[p.id := res];
        }
        i := i + 1;
      }
      assert products[..i] == products;
    }

    /** generateMockRankings: k bidders built one by one. */
    method GenerateMockRankings(productId: string, k: int) returns (r: seq<RankingItem>)
      ensures r == MockRankings(productId, k, BasePriceFor(products, productId))
    {
      var basePrice := BasePriceFor(products, productId);
      r := [];
      var i := 0;
      while i < k
        invariant 0 <= i <= MaxInt(k, 0) && i == |r|
        invariant forall j :: 0 <= j < i ==> r[j] == MockRanking(productId, k, basePrice, j)
      {
        var price := basePrice + (k - i) as real * 50.0;
        var reactionTime := 100.0 + i as real * 20.0;
        var weight := 1.0 + i as real * 0.1;
        var score := Score(price, weight, reactionTime);
        r := r + [RankingItem(i + 1, MockUserId(productId, i + 1), MockDisplayName(i + 1), price, reactionTime, weight, score)];
        i := i + 1;
      }
      ghost var expected := MockRankings(productId, k, basePrice);
      assert |r| == MaxInt(k, 0) == |expected|;
      forall j | 0 <= j < |r| ensures r[j] == expected[j] {
        assert expected[j] == MockRanking(productId, k, basePrice, j);
      }
    }

    /** generateMockResults: k winners built one by one. */
    method GenerateMockResults(productId: string, k: int) returns (r: seq<ProductResult>)
      ensures r == MockResults(productId, k, BasePriceFor(products, productId))
    {
      var basePrice := BasePriceFor(products, productId);
      r := [];
      var i := 0;
      while i < k
        invariant 0 <= i <= MaxInt(k, 0) && i == |r|
        invariant forall j :: 0 <= j < i ==> r[j] == MockResult(productId, k, basePrice, j)
      {
        var finalPrice := basePrice + (k - i) as real * 50.0;
        var finalScore := Score(finalPrice, 1.0 + i as real * 0.1, 100.0 + i as real * 20.0);
        r := r + [ProductResult(i + 1, MockUserId(productId, i + 1), MockDisplayName(i + 1), finalPrice, finalScore, true)];
        i := i + 1;
      }
      ghost var expected := MockResults(productId, k, basePrice);
      assert |r| == MaxInt(k, 0) == |expected|;
      forall j | 0 <= j < |r| ensures r[j] == expected[j] {
        assert expected[j] == MockResult(productId, k, basePrice, j);
      }
    }

    /**
     * updateProductStatuses at clock reading `now`: each product ticks
     * once, in list order, and a product that ends gets generated results
     * unless it has some already.
     */
    method UpdateProductStatuses(now: int)
      requires Valid()
      modifies this
      ensures Valid()
      ensures products == Ticked(old(products), now)
      ensures results == TickResults(old(products), old(products), old(results), now)
      ensures rankings == old(rankings)
    {
      ghost var ps := products;
      var i := 0;
      while i < |products|
        invariant 0 <= i <= |ps|
        invariant products == Ticked(ps, now)[..i] + ps[i..]
        invariant results == TickResults(ps[..i], ps, old(results), now)
        invariant rankings == old(rankings)
      {
        TickedPrefixStep(ps, i, now);
        TickResultsStep(ps, i, old(results), now);
        var p := products[i];
        if p.status == NotStarted && now >= p.startTime {
          products := products[i := p.(status := Active)];
        } else if p.status == Active && now >= p.endTime {
          products := products[i := p.(status := Ended)];
          if p.id !in results {
            BasePriceForPartlyTicked(ps, i + 1, now, p.id);
            var res := GenerateMockResults(p.id, p.k);
            results := results[p.id := res];
          }
        }
        i := i + 1;
      }
      assert ps[..i] == ps;
    }

    /**
     * placeBid. A refused bid changes nothing. An accepted one raises the
     * highest price when it is higher and stores the re-sorted, re-ranked
     * leaderboard cut to k places. `reactionTime` is the reaction time a
     * first-time bidder is given.
     */
    method PlaceBid(productId: string, userId: string, price: real, reactionTime: real) returns (outcome: BidOutcome)
      requires Valid()
      modifies this
      ensures Valid()
      ensures outcome == CheckBid(old(products), productId, price)
      ensures outcome.Refused? ==> products == old(products) && rankings == old(rankings)
      ensures outcome.Accepted? ==>
                var i := FindIndex(old(products), productId).value;
                && products == old(products)[i := RaiseHighest(old(products)[i], price)]
                && rankings == old(rankings)[productId :=
                     BidRankings(StoredRankings(old(rankings), productId), userId, price, reactionTime, old(products)[i].k)]
      ensures results == old(results)
    {
      outcome := CheckBid(products, productId, price);
      if outcome.Refused? {
        return;
      }
      var i := FindIndex(products, productId).value;
      var product := products[i];
      if price > product.currentHighestPrice {
        products := products[i := product.(currentHighestPrice := price)];
      }
      var current := GetProductRankings(productId);
      var top := RankTopK(current, userId, price, reactionTime, product.k);
      BidRankingsDistinct(current, userId, price, reactionTime, product.k);
      rankings := rankings[productId := top];
    }

    /**
     * createProduct at clock reading `now`: the product is appended and
     * given a generated leaderboard, whose prices come from the first
     * product with the new id.
     */
    method CreateProduct(input: NewProduct, now: int) returns (p: Product)
      requires Valid()
      modifies this
      ensures Valid()
      ensures p == NewProductRecord(input, now)
      ensures products == old(products) + [p]
      ensures rankings == old(rankings)[p.id := MockRankings(p.id, p.k, BasePriceFor(old(products) + [p], p.id))]
      ensures results == old(results)
    {
      p := NewProductRecord(input, now);
      products := products + [p];
      var r := GenerateMockRankings(p.id, p.k);
      MockRankingsDistinct(p.id, p.k, BasePriceFor(products, p.id));
      rankings := rankings[p.id := r];
    }

    /** updateProduct: None for an unknown id, otherwise the first product with the id is shallow-merged. */
    method UpdateProduct(id: string, updates: Patch) returns (r: Option<Product>)
      requires Valid()
      modifies this
      ensures Valid()
      ensures FindIndex(old(products), id).None? ==> r.None? && products == old(products)
      ensures FindIndex(old(products), id).Some? ==>
                var i := FindIndex(old(products), id).value;
                r == Some(ApplyPatch(old(products)[i], updates)) && products == old(products)[i := r.value]
      ensures rankings == old(rankings) && results == old(results)
    {
      var index := FindIndex(products, id);
      if index.None? {
        return None;
      }
      var q := ApplyPatch(products[index.value], updates);
      products := products[index.value := q];
      r := Some(q);
    }

    /** updateProductStatus: an update that supplies only the status. */
    method UpdateProductStatus(id: string, status: ProductStatus) returns (r: Option<Product>)
      requires Valid()
      modifies this
      ensures Valid()
      ensures FindIndex(old(products), id).None? ==> r.None? && products == old(products)
      ensures FindIndex(old(products), id).Some? ==>
                var i := FindIndex(old(products), id).value;
                r == Some(old(products)[i].(status := status)) && products == old(products)[i := r.value]
      ensures rankings == old(rankings) && results == old(results)
    {
      StatusPatchOnlyStatus(if FindIndex(products, id).Some? then products[FindIndex(products, id).value] else
                              Product("", "", "", 0.0, 0, 0, 0, status, 0.0, None, None, None), status);
      r := UpdateProduct(id, StatusPatch(status));
    }
  }
}
