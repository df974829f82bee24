/**
 * The product service of the Go backend: creating a product writes the
 * products table and then the product's Redis config hash; changing a
 * status rewrites that one field in both places.
 */
module Product {
  import opened Common
  import opened GoText
  import Redis

  /** A row of the products table; the status is free text, as ProductStatus is a string type. */
  datatype Product = Product(
    id: string, title: string, description: string, basePrice: real, k: int,
    startTime: int, endTime: int, status: string, alpha: real, beta: real, gamma: real)

  const ConfigFields: set<string> := {"startTime", "endTime", "basePrice", "k", "alpha", "beta", "gamma", "status"}

  /** The id written by fmt.Sprintf("prod_%d", nanos). */
  function GeneratedID(nanos: int): (id: string)
    ensures |id| > 5 && id[..5] == "prod_"
  {
    "prod_" + FormatInt(nanos)
  }

  /** CreateProduct's defaults: an id only when none is given, not_started only when the status is empty. */
  function WithDefaults(p: Product, nanos: int): (q: Product)
    ensures q.id != "" && q.status != ""
    ensures p.id != "" ==> q.id == p.id
    ensures p.id == "" ==> q.id == GeneratedID(nanos)
    ensures p.status != "" ==> q.status == p.status
    ensures p.status == "" ==> q.status == StatusName(NotStarted)
    ensures q.(id := p.id, status := p.status) == p
  {
    p.(id := if p.id == "" then GeneratedID(nanos) else p.id,
       status := if p.status == "" then "not_started" else p.status)
  }

  /** Applying the defaults a second time, at any clock reading, changes nothing. */
  lemma WithDefaultsIdempotent(p: Product, nanos1: int, nanos2: int)
    ensures WithDefaults(WithDefaults(p, nanos1), nanos2) == WithDefaults(p, nanos1)
  {
  }

  /**
   * What gorm's Create leaves in the struct it inserts: a zero Alpha, Beta
   * or Gamma takes its column default (1.0, 0.5, 0.3) from the struct tags.
   * The status default never applies, as WithDefaults has filled it.
   */
  function GormDefaults(p: Product): (q: Product)
    ensures q.alpha != 0.0 && q.beta != 0.0 && q.gamma != 0.0
    ensures p.alpha != 0.0 ==> q.alpha == p.alpha
    ensures p.beta != 0.0 ==> q.beta == p.beta
    ensures p.gamma != 0.0 ==> q.gamma == p.gamma
    ensures p.alpha == 0.0 ==> q.alpha == 1.0
    ensures p.beta == 0.0 ==> q.beta == 0.5
    ensures p.gamma == 0.0 ==> q.gamma == 0.3
    ensures q.(alpha := p.alpha, beta := p.beta, gamma := p.gamma) == p
  {
    p.(alpha := if p.alpha == 0.0 then 1.0 else p.alpha,
       beta := if p.beta == 0.0 then 0.5 else p.beta,
       gamma := if p.gamma == 0.0 then 0.3 else p.gamma)
  }

  /** The product as CreateProduct leaves it: its defaults, then gorm's; doing it again changes nothing. */
  lemma StoredProductIdempotent(p: Product, nanos1: int, nanos2: int)
    ensures var q := GormDefaults(WithDefaults(p, nanos1));
            GormDefaults(WithDefaults(q, nanos2)) == q
  {
  }

  /** The hash of the eight config fields, from their texts. */
  function ConfigHash(startTime: string, endTime: string, basePrice: string, k: string,
                      alpha: string, beta: string, gamma: string, status: string): (h: Redis.Hash)
    ensures h.Keys == ConfigFields
    ensures h["startTime"] == startTime && h["endTime"] == endTime && h["basePrice"] == basePrice && h["k"] == k
    ensures h["alpha"] == alpha && h["beta"] == beta && h["gamma"] == gamma && h["status"] == status
  {
    map["startTime" := startTime, "endTime" := endTime, "basePrice" := basePrice, "k" := k,
        "alpha" := alpha, "beta" := beta, "gamma" := gamma, "status" := status]
  }

  /** The fields CreateProduct writes to auction:{id}:config; currentHighestPrice is not among them. */
  function ConfigRecord(p: Product): (h: Redis.Hash)
    ensures h.Keys == ConfigFields
    ensures "currentHighestPrice" !in h
    ensures h["startTime"] == FormatInt(p.startTime) && h["endTime"] == FormatInt(p.endTime) && h["k"] == FormatInt(p.k)
    ensures h["basePrice"] == FormatFixed6(p.basePrice) && h["alpha"] == FormatFixed6(p.alpha)
    ensures h["beta"] == FormatFixed6(p.beta) && h["gamma"] == FormatFixed6(p.gamma)
    ensures h["status"] == p.status
  {
    ConfigHash(FormatInt(p.startTime), FormatInt(p.endTime), FormatFixed6(p.basePrice), FormatInt(p.k),
               FormatFixed6(p.alpha), FormatFixed6(p.beta), FormatFixed6(p.gamma), p.status)
  }

  class Service {
    const rdb: Redis.Store
    var db: map<string, Product>

    constructor(rdb: Redis.Store, db: map<string, Product>)
      ensures this.rdb == rdb && this.db == db
    {
      this.rdb := rdb;
      this.db := db;
    }

    /**
     * CreateProduct. The insert fails on a taken primary key or a database
     * fault (`dbFault`), and then no config is written; gorm has already
     * filled the coefficient defaults into the struct by then. After a
     * successful insert the HSET can still fail (`redisFault`): the error is
     * returned with the row stored and no config written. `nanos` is the
     * clock reading an id is made from.
     */
    method CreateProduct(p: Product, nanos: int, dbFault: bool, redisFault: bool) returns (saved: Product, ok: bool)
      modifies this, rdb
      ensures saved == GormDefaults(WithDefaults(p, nanos))
      ensures ok <==> !dbFault && saved.id !in old(db) && !redisFault
      ensures !dbFault && saved.id !in old(db) ==> db == old(db)[saved.id := saved]
      ensures dbFault || saved.id in old(db) ==> db == old(db)
      ensures ok ==> rdb.Config(saved.id) == old(rdb.Config(saved.id)) + ConfigRecord(saved)
      ensures !ok ==> rdb.configs == old(rdb.configs)
      ensures forall other :: other != saved.id ==> rdb.Config(other) == old(rdb.Config(other))
      ensures rdb.ranks == old(rdb.ranks) && rdb.bids == old(rdb.bids)
    {
      saved := GormDefaults(WithDefaults(p, nanos));
      if dbFault || saved.id in db {
        return saved, false;
      }
      db := db[saved.id := saved];
      if redisFault {
        return saved, false;
      }
      rdb.SetConfigFields(saved.id, ConfigRecord(saved));
      ok := true;
    }

    /**
     * UpdateStatus: any status string is accepted. Updating no row is not an
     * error for the database, so an unknown id still gets a status field.
     * A Redis fault after the database update returns an error with the row
     * already changed, so the two stores then disagree.
     */
    method UpdateStatus(id: string, status: string, dbFault: bool, redisFault: bool) returns (ok: bool)
      modifies this, rdb
      ensures ok <==> !dbFault && !redisFault
      ensures !dbFault && id in old(db) ==> db == old(db)[id := old(db)[id].(status := status)]
      ensures !(!dbFault && id in old(db)) ==> db == old(db)
      ensures ok ==> rdb.Config(id) == old(rdb.Config(id))["status" := status]
      ensures !ok ==> rdb.configs == old(rdb.configs)
      ensures forall other :: other != id ==> rdb.Config(other) == old(rdb.Config(other))
      ensures rdb.ranks == old(rdb.ranks) && rdb.bids == old(rdb.bids)
    {
      if dbFault {
        return false;
      }
      if id in db {
        db := db[id := db[id].(status := status)];
      }
      if redisFault {
        return false;
      }
      rdb.SetConfigFields(id, map["status" := status]);
      ok := true;
    }
  }
}
