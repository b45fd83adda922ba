/** The goods-list cache of internal/good/cache/redis: one Redis key holding
    the JSON encoding of the last listed page, with a one-minute TTL, and the
    projections between the domain list and its cached shape (model.go). */
module Cache {

  import opened Wrappers
  import opened Domain

  /** The only key the cache ever touches. */
  const GoodsListKey: string := "goodsList"

  /** time.Minute, in nanoseconds. */
  const Ttl: int := 60_000_000_000

  type Bytes = seq<bv8>

  // ---------------------------------------------------------------------------
  // The cached shape and the projections
  // ---------------------------------------------------------------------------

  datatype RedisMeta = RedisMeta(total: Int32, removed: Int32, limit: Int32, offset: Int32)

  datatype RedisGood = RedisGood(
    id: Int64,
    projectId: Int64,
    name: string,
    description: string,
    priority: Int32,
    removed: bool,
    createdAt: Time)

  datatype RedisList = RedisList(meta: RedisMeta, goods: seq<RedisGood>)

  /** One element of toRedis: every field but Removed, which keeps its zero
      value. */
  function ToRedisGood(g: Good): RedisGood {
    RedisGood(g.ID, g.ProjectID, g.Name, g.Description, g.Priority, false, g.CreatedAt)
  }

  /** One element of fromRedis: every field but removed. */
  function FromRedisGood(g: RedisGood): Good {
    Good(g.id, g.projectId, g.name, g.description, g.priority, false, g.createdAt)
  }

  /** The append loop of toRedis. */
  function ToRedisGoods(goods: seq<Good>): (r: seq<RedisGood>)
    ensures |r| == |goods|
  {
    if goods == [] then []
    else ToRedisGoods(goods[..|goods| - 1]) + [ToRedisGood(goods[|goods| - 1])]
  }

  /** The append loop of fromRedis. */
  function FromRedisGoods(goods: seq<RedisGood>): (r: seq<Good>)
    ensures |r| == |goods|
  {
    if goods == [] then []
    else FromRedisGoods(goods[..|goods| - 1]) + [FromRedisGood(goods[|goods| - 1])]
  }

  /** toRedis: the meta as it is and one cached good per good, none of them
      marked removed. */
  function ToRedis(l: GoodsList): (r: RedisList)
    ensures r.meta == RedisMeta(l.Meta.Total, l.Meta.Removed, l.Meta.Limit, l.Meta.Offset)
    ensures |r.goods| == |l.Goods|
    ensures forall i :: 0 <= i < |r.goods| ==> !r.goods[i].removed && r.goods[i].id == l.Goods[i].ID
  {
    var goods := ToRedisGoods(l.Goods);
    assert forall i :: 0 <= i < |goods| ==> !goods[i].removed && goods[i].id == l.Goods[i].ID by {
      forall i | 0 <= i < |goods| ensures !goods[i].removed && goods[i].id == l.Goods[i].ID {
        ToRedisGoodsAt(l.Goods, i);
      }
    }
    RedisList(RedisMeta(l.Meta.Total, l.Meta.Removed, l.Meta.Limit, l.Meta.Offset), goods)
  }

  /** fromRedis: the meta as it is and one good per cached good, none of
      them removed whatever the cache holds. */
  function FromRedis(r: RedisList): (l: GoodsList)
    ensures l.Meta == Meta(r.meta.total, r.meta.removed, r.meta.limit, r.meta.offset)
    ensures |l.Goods| == |r.goods|
    ensures forall i :: 0 <= i < |l.Goods| ==> !l.Goods[i].Removed && l.Goods[i].ID == r.goods[i].id
  {
    var goods := FromRedisGoods(r.goods);
    assert forall i :: 0 <= i < |goods| ==> !goods[i].Removed && goods[i].ID == r.goods[i].id by {
      forall i | 0 <= i < |goods| ensures !goods[i].Removed && goods[i].ID == r.goods[i].id {
        FromRedisGoodsAt(r.goods, i);
      }
    }
    GoodsList(goods, Meta(r.meta.total, r.meta.removed, r.meta.limit, r.meta.offset))
  }

  /** toRedis keeps the number and order of the goods, copies six fields of
      each and leaves `removed` false. */
  lemma {:induction false} ToRedisGoodsAt(goods: seq<Good>, i: nat)
    requires i < |goods|
    ensures var r := ToRedisGoods(goods)[i];
            && r.id == goods[i].ID && r.projectId == goods[i].ProjectID
            && r.name == goods[i].Name && r.description == goods[i].Description
            && r.priority == goods[i].Priority && r.createdAt == goods[i].CreatedAt
            && !r.removed
  {
    if i < |goods| - 1 {
      ToRedisGoodsAt(goods[..|goods| - 1], i);
    }
  }

  /** fromRedis keeps the number and order of the goods and never yields a
      removed good, whatever the cached value says. */
  lemma {:induction false} FromRedisGoodsAt(goods: seq<RedisGood>, i: nat)
    requires i < |goods|
    ensures FromRedisGoods(goods)[i] == FromRedisGood(goods[i])
    ensures !FromRedisGoods(goods)[i].Removed
  {
    if i < |goods| - 1 {
      FromRedisGoodsAt(goods[..|goods| - 1], i);
    }
  }

  /** The list with every good's Removed cleared. */
  function ClearRemoved(goods: seq<Good>): (r: seq<Good>)
    ensures |r| == |goods|
  {
    seq(|goods|, i requires 0 <= i < |goods| => WithoutRemoved(goods[i]))
  }

  /** The round trip through the cached shape is lossy in exactly one way:
      the meta and every good come back unchanged except that Removed is
      false. */
  lemma {:induction false} RoundTripClearsRemoved(l: GoodsList)
    ensures FromRedis(ToRedis(l)) == GoodsList(ClearRemoved(l.Goods), l.Meta)
  {
    var back := FromRedisGoods(ToRedisGoods(l.Goods));
    forall i | 0 <= i < |l.Goods|
      ensures back[i] == WithoutRemoved(l.Goods[i])
    {
      FromRedisGoodsAt(ToRedisGoods(l.Goods), i);
      ToRedisGoodsAt(l.Goods, i);
    }
    assert back == ClearRemoved(l.Goods);
  }

  // ---------------------------------------------------------------------------
  // The Redis keyspace and the JSON codec
  // ---------------------------------------------------------------------------

  /** A stored value and the instant at which its TTL runs out. */
  datatype Entry = Entry(data: Bytes, expiresAt: Time)

  /** encoding/json for listOfGoods, as a pair of partial functions. */
  datatype Codec = Codec(marshal: RedisList -> Result<Bytes, Error>, unmarshal: Bytes -> Result<RedisList, Error>)

  /** Whatever the codec encodes, it decodes back to the same value. */
  ghost predicate Faithful(c: Codec) {
    forall l :: c.marshal(l).Ok? ==> c.unmarshal(c.marshal(l).value) == Ok(l)
  }

  /** GET semantics with expiry: a key past its TTL reads as absent. */
  function Live(store: map<string, Entry>, key: string, now: Time): (r: Option<Bytes>)
    ensures r.Some? <==> key in store && now < store[key].expiresAt
  {
    if key in store && now < store[key].expiresAt then Some(store[key].data) else None
  }

  /** What GetGoodsList returns for a keyspace, a clock reading and the
      client's error, if any. An absent or expired key is reported as the
      wrapped redis.Nil error, not as a separate miss. */
  function GetOutcome(store: map<string, Entry>, codec: Codec, now: Time, fault: Option<Error>)
    : (r: Result<GoodsList, Error>)
    ensures Live(store, GoodsListKey, now).None? && fault.None? ==>
              r.Err? && Is(r.error, RedisNil)
    ensures r.Ok? ==> forall i :: 0 <= i < |r.value.Goods| ==> !r.value.Goods[i].Removed
  {
    if fault.Some? then Err(Wrap("get", fault.value))
    else
      match Live(store, GoodsListKey, now)
      case None => Err(Wrap("get", Sentinel(RedisNil)))
      case Some(data) =>
        match codec.unmarshal(data)
        case Err(e) => Err(Wrap("json unmarshal", e))
        case Ok(list) =>
          var r := FromRedis(list);
          assert forall i :: 0 <= i < |r.Goods| ==> !r.Goods[i].Removed by {
            forall i | 0 <= i < |r.Goods| ensures !r.Goods[i].Removed {
              FromRedisGoodsAt(list.goods, i);
            }
          }
          Ok(r)
  }

  /** The keyspace after a successful SET of `data` at `now`. */
  function Stored(store: map<string, Entry>, data: Bytes, now: Time): map<string, Entry> {
    store[GoodsListKey := Entry(data, now + Ttl)]
  }

  /** Get after Set, before the minute is up, yields fromRedis of what was
      set: the list written, with every Removed cleared. */
  lemma GetAfterSet(store: map<string, Entry>, codec: Codec, l: GoodsList, now: Time, later: Time)
    requires Faithful(codec) && codec.marshal(ToRedis(l)).Ok?
    requires now <= later < now + Ttl
    ensures GetOutcome(Stored(store, codec.marshal(ToRedis(l)).value, now), codec, later, None)
            == Ok(GoodsList(ClearRemoved(l.Goods), l.Meta))
  {
    RoundTripClearsRemoved(l);
  }

  /** From the instant the minute is up the entry reads as redis.Nil. */
  lemma ExpiredAfterTtl(store: map<string, Entry>, codec: Codec, data: Bytes, now: Time, later: Time)
    requires later >= now + Ttl
    ensures var r := GetOutcome(Stored(store, data, now), codec, later, None);
            r.Err? && Is(r.error, RedisNil)
  {
  }

  // ---------------------------------------------------------------------------
  // The cache object
  // ---------------------------------------------------------------------------

  /** Cache: a Redis client seen as the keyspace it reads and writes. */
  class Cache {
    var store: map<string, Entry>
    const codec: Codec

    ghost predicate Valid()
      reads this
    {
      Faithful(codec)
    }

    /** NewCache over a Redis server whose keyspace is `store`. */
    constructor (codec: Codec, store: map<string, Entry>)
      requires Faithful(codec)
      ensures Valid() && this.codec == codec && this.store == store
    {
      this.codec := codec;
      this.store := store;
    }

    /** SetGoodsList: encode, then SET with the TTL. A marshal failure
        writes nothing; a client error is returned as it is, unwrapped. */
    method SetGoodsList(l: GoodsList, now: Time, fault: Option<Error>) returns (err: Option<Error>)
      requires Valid()
      modifies this
      ensures Valid()
      ensures codec.marshal(ToRedis(l)).Err? ==>
                err == Some(Wrap("json marshal", codec.marshal(ToRedis(l)).error)) && store == old(store)
      ensures codec.marshal(ToRedis(l)).Ok? && fault.Some? ==> err == fault && store == old(store)
      ensures codec.marshal(ToRedis(l)).Ok? && fault.None? ==>
                err.None? && store == Stored(old(store), codec.marshal(ToRedis(l)).value, now)
    {
      var list := ToRedis(l);
      var encoded := codec.marshal(list);
      if encoded.Err? {
        return Some(Wrap("json marshal", encoded.error));
      }
      if fault.Some? {
        return fault;
      }
      store := store[GoodsListKey := Entry(encoded.value, now + Ttl)];
      return None;
    }

    /** GetGoodsList: GET, then decode and project. */
    method GetGoodsList(now: Time, fault: Option<Error>) returns (r: Result<GoodsList, Error>)
      requires Valid()
      ensures r == GetOutcome(store, codec, now, fault)
      ensures fault.None? && Live(store, GoodsListKey, now).None? ==> r.Err? && Is(r.error, RedisNil)
    {
      if fault.Some? {
        return Err(Wrap("get", fault.value));
      }
      var data := Live(store, GoodsListKey, now);
      if data.None? {
        return Err(Wrap("get", Sentinel(RedisNil)));
      }
      var decoded := codec.unmarshal(data.value);
      if decoded.Err? {
        return Err(Wrap("json unmarshal", decoded.error));
      }
      r := Ok(FromRedis(decoded.value));
    }

    /** DeleteGoodsList: DEL, which succeeds whether or not the key exists. */
    method DeleteGoodsList(fault: Option<Error>) returns (err: Option<Error>)
      requires Valid()
      modifies this
      ensures Valid()
      ensures fault.Some? ==> err == Some(Wrap("del", fault.value)) && store == old(store)
      ensures fault.None? ==> err.None? && store == old(store) - {GoodsListKey}
    {
      if fault.Some? {
        return Some(Wrap("del", fault.value));
      }
      store := store - {GoodsListKey};
      return None;
    }
  }

  /** After a successful delete, a read at any time reports redis.Nil. */
  lemma GetAfterDelete(store: map<string, Entry>, codec: Codec, now: Time)
    ensures var r := GetOutcome(store - {GoodsListKey}, codec, now, None);
            r.Err? && Is(r.error, RedisNil)
  {
  }
}
