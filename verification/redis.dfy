/**
 * The part of Redis the auction backend uses, per product id:
 *   auction:{id}:config  a hash of the product's settings,
 *   auction:{id}:rank    a sorted set of user ids by bid score,
 *   auction:{id}:bids    a hash from user id to "price,reactionTime,weight".
 * A key that was never written reads as an empty hash or an empty set.
 */
module Redis {
  import ZSet = RedisZSet

  type Hash = map<string, string>

  class Store {
    var configs: map<string, Hash>
    var ranks: map<string, seq<ZSet.Entry>>
    var bids: map<string, Hash>

    /** Every sorted set is kept in ZREVRANGE order with unique members. */
    ghost predicate Valid()
      reads this
    {
      forall id :: id in ranks ==> ZSet.Valid(ranks[id])
    }

    /** HGETALL auction:{id}:config. */
    function Config(id: string): Hash
      reads this
    {
      if id in configs then configs[id] else map[]
    }

    /** The sorted set auction:{id}:rank, highest first. */
    function Rank(id: string): (z: seq<ZSet.Entry>)
      reads this
      requires Valid()
      ensures ZSet.Valid(z)
    {
      if id in ranks then ranks[id] else []
    }

    /** HGETALL auction:{id}:bids. */
    function Bids(id: string): Hash
      reads this
    {
      if id in bids then bids[id] else map[]
    }

    constructor()
      ensures configs == map[] && ranks == map[] && bids == map[]
      ensures Valid()
    {
      configs, ranks, bids := map[], map[], map[];
    }

    /** HSET auction:{id}:config with the given fields; other fields keep their values. */
    method SetConfigFields(id: string, fields: Hash)
      modifies this
      ensures Config(id) == old(Config(id)) + fields
      ensures forall other :: other != id ==> Config(other) == old(Config(other))
      ensures ranks == old(ranks) && bids == old(bids)
    {
      configs := configs[id := Config(id) + fields];
    }

    /** ZADD auction:{id}:rank score member. */
    method AddScore(id: string, member: string, score: real)
      requires Valid()
      modifies this
      ensures Valid()
      ensures Rank(id) == ZSet.ZAdd(old(Rank(id)), member, score)
      ensures forall other :: other != id && other in old(ranks) ==> other in ranks && ranks[other] == old(ranks[other])
      ensures ranks.Keys == old(ranks.Keys) + {id}
      ensures configs == old(configs) && bids == old(bids)
    {
      ranks := ranks[id := ZSet.ZAdd(Rank(id), member, score)];
    }

    /** HSET auction:{id}:bids member value. */
    method SetBid(id: string, member: string, value: string)
      modifies this
      ensures Bids(id) == old(Bids(id))[member := value]
      ensures forall other :: other != id ==> Bids(other) == old(Bids(other))
      ensures configs == old(configs) && ranks == old(ranks)
    {
      bids := bids[id := Bids(id)[member := value]];
    }
  }
}
