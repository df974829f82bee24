/**
 * The websocket hub of the Go backend: which clients follow which product,
 * and each client's outgoing queue of at most 256 messages. Register,
 * unregister, a client's subscribe message, the per-product broadcast and
 * Run's broadcast-to-everyone are atomic steps here; a client is a number.
 */
module WebSocketHub {
  import opened Common
  import opened GoText

  type ClientId = nat
  type Message = string
  type Subscribers = map<string, set<ClientId>>

  /** The buffer size of a client's send channel. */
  const Capacity: nat := 256

  // -------------------------------------------------------------------
  // The subscriber map as a value

  /** Adds c to the set of p, creating the set when p has none. */
  function Enter(subs: Subscribers, p: string, c: ClientId): (r: Subscribers)
    ensures r.Keys == subs.Keys + {p}
    ensures r[p] == (if p in subs then subs[p] else {}) + {c}
    ensures forall q :: q in subs && q != p ==> r[q] == subs[q]
  {
    subs[p := (if p in subs then subs[p] else {}) + {c}]
  }

  /** Takes c out of the set of p and deletes p's entry once it is empty (the first half of a subscribe). */
  function Leave(subs: Subscribers, p: string, c: ClientId): (r: Subscribers)
    ensures p in r ==> p in subs && r[p] == subs[p] - {c} && r[p] != {}
    ensures p !in r ==> p !in subs || subs[p] - {c} == {}
    ensures r.Keys <= subs.Keys && subs.Keys - {p} <= r.Keys
    ensures forall q :: q in subs && q != p ==> r[q] == subs[q]
  {
    if p !in subs then subs
    else if subs[p] - {c} == {} then subs - {p}
    else subs[p := subs[p] - {c}]
  }

  /** The clients of `s` whose queue is already full. */
  function Full(s: set<ClientId>, queues: map<ClientId, seq<Message>>): set<ClientId>
  {
    set c | c in s && c in queues && |queues[c]| >= Capacity
  }

  /** Every client of `s` with room in its queue gets `msg` at the back; no other queue changes. */
  function Deliver(queues: map<ClientId, seq<Message>>, s: set<ClientId>, msg: Message): (r: map<ClientId, seq<Message>>)
    ensures r.Keys == queues.Keys
  {
    map c | c in queues :: if c in s && |queues[c]| < Capacity then queues[c] + [msg] else queues[c]
  }

  /** The clients in the sets of the products in `keys`. */
  function SubscribedIn(subs: Subscribers, keys: set<string>): set<ClientId>
  {
    set p, c | p in keys && p in subs && c in subs[p] :: c
  }

  /**
   * Offering a message leaves every client outside the offered set alone,
   * appends it for every offered client with room, and leaves a full queue as
   * it is: nothing is ever queued beyond the capacity.
   */
  lemma DeliverSpec(queues: map<ClientId, seq<Message>>, s: set<ClientId>, msg: Message, c: ClientId)
    requires c in queues
    ensures c !in s ==> Deliver(queues, s, msg)[c] == queues[c]
    ensures c in s && c !in Full(s, queues) ==> Deliver(queues, s, msg)[c] == queues[c] + [msg]
    ensures c in Full(s, queues) ==> Deliver(queues, s, msg)[c] == queues[c]
    ensures |queues[c]| <= Capacity ==> |Deliver(queues, s, msg)[c]| <= Capacity
  {
  }

  lemma DeliverTwice(queues: map<ClientId, seq<Message>>, a: set<ClientId>, b: set<ClientId>, msg: Message)
    requires a !! b
    ensures Deliver(Deliver(queues, a, msg), b, msg) == Deliver(queues, a + b, msg)
  {
  }

  lemma FullAfterDeliver(s: set<ClientId>, queues: map<ClientId, seq<Message>>, d: set<ClientId>, msg: Message)
    requires s !! d
    ensures Full(s, Deliver(queues, d, msg)) == Full(s, queues)
  {
  }

  /** Offering to one more client changes its queue, or marks it full, and nothing else. */
  lemma OfferStep(queues: map<ClientId, seq<Message>>, done: set<ClientId>, c: ClientId, msg: Message)
    requires c in queues && c !in done
    ensures Deliver(queues, done, msg)[c] == queues[c]
    ensures |queues[c]| < Capacity ==>
              && Deliver(queues, done + {c}, msg) == Deliver(queues, done, msg)[c := queues[c] + [msg]]
              && Full(done + {c}, queues) == Full(done, queues)
    ensures |queues[c]| >= Capacity ==>
              && Deliver(queues, done + {c}, msg) == Deliver(queues, done, msg)
              && Full(done + {c}, queues) == Full(done, queues) + {c}
  {
  }

  lemma FullUnion(a: set<ClientId>, b: set<ClientId>, queues: map<ClientId, seq<Message>>)
    ensures Full(a + b, queues) == Full(a, queues) + Full(b, queues)
  {
  }

  lemma SubscribedInStep(subs: Subscribers, keys: set<string>, p: string)
    requires p in subs && p !in keys
    ensures SubscribedIn(subs, keys + {p}) == SubscribedIn(subs, keys) + subs[p]
  {
    forall c | c in subs[p] ensures c in SubscribedIn(subs, keys + {p}) {
      assert p in keys + {p} && p in subs && c in subs[p];
    }
  }

  /** The subscriber map once the products in `keys` have dropped their full clients; no entry is deleted. */
  function Thinned(subs: Subscribers, queues: map<ClientId, seq<Message>>, keys: set<string>): (r: Subscribers)
    ensures r.Keys == subs.Keys
  {
    map p | p in subs :: if p in keys then subs[p] - Full(subs[p], queues) else subs[p]
  }

  /** The bookkeeping of one round of Run's broadcast loop: the next product's clients are new. */
  lemma BroadcastStep(subs0: Subscribers, queues0: map<ClientId, seq<Message>>, todo: set<string>, done: set<ClientId>,
                      p: string, productOf: map<ClientId, string>, msg: Message)
    requires p in todo && todo <= subs0.Keys
    requires forall q, c :: q in subs0 && c in subs0[q] ==> c in productOf && productOf[c] == q
    requires done == SubscribedIn(subs0, subs0.Keys - todo)
    ensures Thinned(subs0, queues0, subs0.Keys - todo)[p] == subs0[p]
    ensures Thinned(subs0, queues0, subs0.Keys - todo)[p := subs0[p] - Full(subs0[p], queues0)]
            == Thinned(subs0, queues0, subs0.Keys - (todo - {p}))
    ensures Full(subs0[p], Deliver(queues0, done, msg)) == Full(subs0[p], queues0)
    ensures Deliver(Deliver(queues0, done, msg), subs0[p], msg) == Deliver(queues0, done + subs0[p], msg)
    ensures Full(done + subs0[p], queues0) == Full(done, queues0) + Full(subs0[p], queues0)
    ensures SubscribedIn(subs0, subs0.Keys - (todo - {p})) == done + subs0[p]
  {
    var s := subs0[p];
    assert s !! done by {
      forall c | c in done ensures c !in s {
        var q, c' :| q in subs0.Keys - todo && q in subs0 && c' in subs0[q] && c' == c;
        assert productOf[c] == q && q != p;
      }
    }
    FullAfterDeliver(s, queues0, done, msg);
    DeliverTwice(queues0, done, s, msg);
    FullUnion(done, s, queues0);
    assert subs0.Keys - (todo - {p}) == (subs0.Keys - todo) + {p};
    SubscribedInStep(subs0, subs0.Keys - todo, p);
  }

  /** Subscribing leaves the entries of every product other than the old and the new one untouched. */
  lemma SubscribeIsolation(subs: Subscribers, from: string, to: string, c: ClientId, q: string)
    requires q != from && q != to
    ensures var r := Enter(Leave(subs, from, c), to, c);
            && (q in r <==> q in subs)
            && (q in subs ==> r[q] == subs[q])
  {
  }

  /** Re-subscribing to the product a client already follows gives back the same map. */
  lemma ResubscribeIsNoChange(subs: Subscribers, p: string, c: ClientId)
    requires p in subs && c in subs[p]
    ensures Enter(Leave(subs, p, c), p, c) == subs
  {
    var r := Enter(Leave(subs, p, c), p, c);
    assert r[p] == subs[p];
    assert r.Keys == subs.Keys;
  }

  /**
   * Every client has a productID and a queue, no queue is over capacity,
   * and a client in the set of p has productID p.
   */
  ghost predicate Consistent(subs: Subscribers, productOf: map<ClientId, string>,
                             queues: map<ClientId, seq<Message>>, closed: set<ClientId>)
  {
    && productOf.Keys == queues.Keys
    && closed <= queues.Keys
    && (forall c :: c in queues ==> |queues[c]| <= Capacity)
    && (forall p, c :: p in subs && c in subs[p] ==> c in productOf && productOf[c] == p)
  }

  /** No subscribed client has a closed send channel. */
  predicate OpenSubscribers(subs: Subscribers, closed: set<ClientId>)
  {
    forall p, c :: p in subs && c in subs[p] ==> c !in closed
  }

  /** A broadcast to p reaches `client.send <- message` for a closed channel, which panics. */
  predicate BroadcastPanics(subs: Subscribers, closed: set<ClientId>, p: string)
  {
    p in subs && subs[p] * closed != {}
  }

  /** The subscriber map after BroadcastToProduct(p): full clients dropped, an entry emptied by that deleted. */
  function AfterBroadcast(subs: Subscribers, queues: map<ClientId, seq<Message>>, p: string): (r: Subscribers)
    requires p in subs
    ensures p in r ==> r[p] == subs[p] - Full(subs[p], queues)
    ensures p !in r <==> Full(subs[p], queues) != {} && subs[p] - Full(subs[p], queues) == {}
    ensures forall q :: q != p ==> (q in r <==> q in subs) && (q in subs ==> r[q] == subs[q])
  {
    var f := Full(subs[p], queues);
    if f != {} && subs[p] - f == {} then subs - {p} else subs[p := subs[p] - f]
  }

  /**
   * Offering a message to the open clients of p and dropping the full ones
   * keeps the hub consistent, and keeps every subscriber open.
   */
  lemma OfferKeepsConsistent(subs: Subscribers, productOf: map<ClientId, string>,
                             queues: map<ClientId, seq<Message>>, closed: set<ClientId>, p: string, msg: Message)
    requires Consistent(subs, productOf, queues, closed) && p in subs && subs[p] !! closed
    ensures var f := Full(subs[p], queues);
            Consistent(subs[p := subs[p] - f], productOf, Deliver(queues, subs[p], msg), closed + f)
    ensures var f := Full(subs[p], queues);
            OpenSubscribers(subs, closed) ==> OpenSubscribers(subs[p := subs[p] - f], closed + f)
  {
    var f := Full(subs[p], queues);
    var r := subs[p := subs[p] - f];
    if OpenSubscribers(subs, closed) {
      forall q, c | q in r && c in r[q] ensures c !in closed + f {
        assert c in subs[q];
        if q == p {
          assert c !in f;
        } else {
          assert productOf[c] == q;
        }
      }
    }
    forall c | c in queues ensures |Deliver(queues, subs[p], msg)[c]| <= Capacity {
      DeliverSpec(queues, subs[p], msg, c);
    }
  }

  /**
   * Moving c from the set of its product to the set of `to` keeps the hub
   * consistent; the subscribers stay open when c's own channel is open.
   */
  lemma SubscribeKeepsConsistent(subs: Subscribers, productOf: map<ClientId, string>,
                                 queues: map<ClientId, seq<Message>>, closed: set<ClientId>, c: ClientId, to: string)
    requires Consistent(subs, productOf, queues, closed) && c in productOf
    ensures Consistent(Enter(Leave(subs, productOf[c], c), to, c), productOf[c := to], queues, closed)
    ensures OpenSubscribers(subs, closed) && c !in closed ==>
              OpenSubscribers(Enter(Leave(subs, productOf[c], c), to, c), closed)
  {
    var from := productOf[c];
    var mid := Leave(subs, from, c);
    var r := Enter(mid, to, c);
    forall q, d | q in r && d in r[q] ensures d in productOf[c := to] && productOf[c := to][d] == q {
      if d != c {
        assert q in subs && d in subs[q];
      }
    }
    if OpenSubscribers(subs, closed) && c !in closed {
      forall q, d | q in r && d in r[q] ensures d !in closed {
        if d != c {
          assert q in subs && d in subs[q];
        }
      }
    }
  }

  /**
   * As written, a client the hub dropped can subscribe again. A broadcast
   * to p finds c's queue full, closes its channel and takes it out of p's
   * set, but c's readPump goes on reading until the write side closes the
   * connection; a subscribe message read in that window puts c, closed,
   * into the set of `to`, and the next broadcast to `to` sends on the
   * closed channel and panics.
   */
  lemma DroppedClientResubscribes(subs: Subscribers, productOf: map<ClientId, string>,
                                  queues: map<ClientId, seq<Message>>, closed: set<ClientId>,
                                  p: string, c: ClientId, to: string)
    requires Consistent(subs, productOf, queues, closed) && OpenSubscribers(subs, closed)
    requires p in subs && c in subs[p] && |queues[c]| >= Capacity
    ensures var subs1 := AfterBroadcast(subs, queues, p);
            var closed1 := closed + Full(subs[p], queues);
            var subs2 := Enter(Leave(subs1, productOf[c], c), to, c);
            && c in closed1
            && !(p in subs1 && c in subs1[p])
            && !BroadcastPanics(subs1, closed1, p)
            && BroadcastPanics(subs2, closed1, to)
            && !OpenSubscribers(subs2, closed1)
  {
    var f := Full(subs[p], queues);
    assert c in f;
    var subs1 := AfterBroadcast(subs, queues, p);
    var subs2 := Enter(Leave(subs1, productOf[c], c), to, c);
    assert c in subs2[to] * (closed + f);
    if p in subs1 {
      forall d | d in subs1[p] ensures d !in closed + f {
        assert d in subs[p];
      }
    }
  }

  // -------------------------------------------------------------------
  // The hub

  class Hub {
    var subscribers: Subscribers
    /** Each client's productID field. */
    var productOf: map<ClientId, string>
    /** The buffered contents of each client's send channel. */
    var queues: map<ClientId, seq<Message>>
    /** The clients whose send channel has been closed. */
    var closed: set<ClientId>

    /**
     * Every client has a productID and a queue, no queue is over capacity,
     * and a client in the set of p has productID p.
     */
    ghost predicate Valid()
      reads this
    {
      Consistent(subscribers, productOf, queues, closed)
    }

    /** No subscribed client has a closed send channel. */
    predicate Open()
      reads this
    {
      OpenSubscribers(subscribers, closed)
    }

    /** No product keeps an entry with an empty set. */
    ghost predicate NoEmptyEntries()
      reads this
    {
      forall p :: p in subscribers ==> subscribers[p] != {}
    }

    /** c sits in the set of the product its productID names. */
    ghost predicate Subscribed(c: ClientId)
      reads this
      requires c in productOf
    {
      productOf[c] in subscribers && c in subscribers[productOf[c]]
    }

    constructor()
      ensures Valid() && Open() && NoEmptyEntries()
      ensures subscribers == map[] && productOf == map[] && queues == map[] && closed == {}
    {
      subscribers, productOf, queues, closed := map[], map[], map[], {};
    }

    /** A client is in at most one product's set. */
    lemma AtMostOneProduct(c: ClientId, p: string, q: string)
      requires Valid()
      requires p in subscribers && c in subscribers[p] && q in subscribers && c in subscribers[q]
      ensures p == q
    {
      assert productOf[c] == p && productOf[c] == q;
    }

    /** ServeWS: a new client with productID "" and an empty send channel. */
    method NewClient(c: ClientId)
      requires Valid() && c !in queues
      modifies this
      ensures Valid() && (old(NoEmptyEntries()) ==> NoEmptyEntries()) && (old(Open()) ==> Open())
      ensures productOf == old(productOf)[c := ""] && queues == old(queues)[c := []]
      ensures subscribers == old(subscribers) && closed == old(closed)
    {
      productOf := productOf[c := ""];
      queues := queues[c := []];
    }

    /** Run, register case: the client joins the set of its current productID. */
    method Register(c: ClientId)
      requires Valid() && c in productOf
      modifies this
      ensures productOf == old(productOf) && queues == old(queues) && closed == old(closed)
      ensures Valid() && (old(NoEmptyEntries()) ==> NoEmptyEntries())
      ensures old(Open()) && c !in closed ==> Open()
      ensures subscribers == Enter(old(subscribers), productOf[c], c)
      ensures Subscribed(c)
    {
      subscribers := Enter(subscribers, productOf[c], c);
    }

    /**
     * Run, unregister case: a subscribed client leaves its set, its channel
     * is closed, and an emptied entry is deleted; otherwise nothing changes.
     * Closing a channel that is already closed panics (`panicked`); the
     * state after a panic is not modelled.
     */
    method Unregister(c: ClientId) returns (panicked: bool)
      requires Valid() && c in productOf
      modifies this
      ensures panicked <==> old(Subscribed(c)) && c in old(closed)
      ensures productOf == old(productOf) && queues == old(queues)
      ensures Valid() && (old(NoEmptyEntries()) ==> NoEmptyEntries()) && (old(Open()) ==> Open())
      ensures !panicked && old(Subscribed(c)) ==> subscribers == Leave(old(subscribers), productOf[c], c) && closed == old(closed) + {c}
      ensures !old(Subscribed(c)) ==> subscribers == old(subscribers) && closed == old(closed)
      ensures !panicked ==> !Subscribed(c)
    {
      var p := productOf[c];
      panicked := p in subscribers && c in subscribers[p] && c in closed;
      if panicked {
        return;
      }
      if p in subscribers && c in subscribers[p] {
        subscribers := Leave(subscribers, p, c);
        closed := closed + {c};
      }
    }

    /**
     * readPump, one message: a "subscribe" or "subscribe_rankings" message
     * with a product id moves the client from its old set (deleting that
     * entry if it is left empty) to the set of the new product. A message
     * that did not parse (None) or any other message changes nothing. The
     * client may be one the hub has already dropped and closed: it is
     * subscribed all the same, and a broadcast to its new product panics.
     */
    method HandleMessage(c: ClientId, msg: Option<ClientMessage>)
      requires Valid() && c in productOf
      modifies this
      ensures Valid() && (old(NoEmptyEntries()) ==> NoEmptyEntries())
      ensures IsSubscribeRequest(msg) ==>
                && subscribers == Enter(Leave(old(subscribers), old(productOf[c]), c), msg.value.productId, c)
                && productOf == old(productOf)[c := msg.value.productId]
                && Subscribed(c)
      ensures !IsSubscribeRequest(msg) ==> subscribers == old(subscribers) && productOf == old(productOf)
      ensures queues == old(queues) && closed == old(closed)
      ensures old(Open()) && c !in closed ==> Open()
      ensures IsSubscribeRequest(msg) && c in closed ==> BroadcastPanics(subscribers, closed, msg.value.productId)
    {
      if IsSubscribeRequest(msg) {
        var target := msg.value.productId;
        SubscribeKeepsConsistent(subscribers, productOf, queues, closed, c, target);
        subscribers := Leave(subscribers, productOf[c], c);
        productOf := productOf[c := target];
        subscribers := Enter(subscribers, target, c);
        if c in closed {
          assert c in subscribers[target] * closed;
        }
      }
    }

    /**
     * readPump's subscribe as evidently intended: a client whose channel
     * the hub has closed is not subscribed again, so no subscriber is ever
     * closed and no broadcast sends on a closed channel.
     */
    method HandleMessageCorrected(c: ClientId, msg: Option<ClientMessage>)
      requires Valid() && c in productOf
      modifies this
      ensures Valid() && (old(NoEmptyEntries()) ==> NoEmptyEntries())
      ensures old(Open()) ==> Open()
      ensures IsSubscribeRequest(msg) && c !in closed ==>
                && subscribers == Enter(Leave(old(subscribers), old(productOf[c]), c), msg.value.productId, c)
                && productOf == old(productOf)[c := msg.value.productId]
                && Subscribed(c)
      ensures !(IsSubscribeRequest(msg) && c !in closed) ==> subscribers == old(subscribers) && productOf == old(productOf)
      ensures queues == old(queues) && closed == old(closed)
    {
      if c !in closed {
        HandleMessage(c, msg);
      }
    }

    /**
     * Offers `msg` to every client in the set of p: a client with room gets
     * it, a full client is closed and taken out of the set. The entry itself
     * stays, even when it ends up empty.
     */
    method Offer(p: string, msg: Message) returns (dropped: set<ClientId>)
      requires Valid() && p in subscribers && subscribers[p] !! closed
      modifies this
      ensures Valid() && (old(Open()) ==> Open())
      ensures dropped == Full(old(subscribers[p]), old(queues))
      ensures subscribers == old(subscribers)[p := old(subscribers[p]) - dropped]
      ensures queues == Deliver(old(queues), old(subscribers[p]), msg)
      ensures closed == old(closed) + dropped
      ensures productOf == old(productOf)
    {
      ghost var subs0, queues0, closed0 := subscribers, queues, closed;
      var members := subscribers[p];
      var todo := members;
      ghost var done: set<ClientId> := {};
      dropped := {};
      assert members - dropped == members;
      assert Deliver(queues0, {}, msg) == queues0;
      while todo != {}
        invariant todo <= members && done == members - todo
        invariant forall c :: c in members ==> c in queues0
        invariant dropped == Full(done, queues0)
        invariant subscribers == subs0[p := members - dropped]
        invariant queues == Deliver(queues0, done, msg)
        invariant closed == closed0 + dropped
        invariant productOf == old(productOf)
        decreases todo
      {
        var c :| c in todo;
        OfferStep(queues0, done, c, msg);
        if |queues[c]| < Capacity {
          queues := queues[c := queues[c] + [msg]];
        } else {
          assert (members - dropped) - {c} == members - (dropped + {c});
          closed := closed + {c};
          dropped := dropped + {c};
          subscribers := subscribers[p := subscribers[p] - {c}];
        }
        todo := todo - {c};
        done := done + {c};
      }
      assert done == members;
      OfferKeepsConsistent(subs0, productOf, queues0, closed0, p, msg);
    }

    /**
     * BroadcastToProduct: nothing happens for a product without an entry;
     * otherwise its clients are offered the message and the entry is deleted
     * when dropping full clients left it empty. A closed client in the set
     * makes the send panic (`panicked`); the state after a panic is not
     * modelled.
     */
    method BroadcastToProduct(p: string, msg: Message) returns (panicked: bool)
      requires Valid()
      modifies this
      ensures panicked <==> BroadcastPanics(old(subscribers), old(closed), p)
      ensures Valid() && (old(NoEmptyEntries()) ==> NoEmptyEntries()) && (old(Open()) ==> Open())
      ensures p !in old(subscribers) ==> subscribers == old(subscribers) && queues == old(queues) && closed == old(closed)
      ensures p in old(subscribers) && !panicked ==>
                var s := old(subscribers[p]);
                var f := Full(s, old(queues));
                && queues == Deliver(old(queues), s, msg)
                && closed == old(closed) + f
                && subscribers == AfterBroadcast(old(subscribers), old(queues), p)
      ensures productOf == old(productOf)
    {
      if p !in subscribers {
        return false;
      }
      if subscribers[p] * closed != {} {
        return true;
      }
      panicked := false;
      assert subscribers[p] !! closed by {
        forall c | c in subscribers[p] ensures c !in closed {
          assert c !in subscribers[p] * closed;
        }
      }
      var dropped := Offer(p, msg);
      if dropped != {} && subscribers[p] == {} {
        subscribers := subscribers - {p};
      }
    }

    /**
     * Run, broadcast case: every client of every product is offered the
     * message and full clients are dropped, but no entry is deleted, so
     * emptied entries remain. A closed subscriber anywhere makes a send
     * panic (`panicked`); the state after a panic is not modelled.
     */
    method BroadcastAll(msg: Message) returns (panicked: bool)
      requires Valid()
      modifies this
      ensures panicked <==> !old(Open())
      ensures Valid() && Open() == old(Open())
      ensures !panicked ==> subscribers == Thinned(old(subscribers), old(queues), old(subscribers.Keys))
      ensures !panicked ==> queues == Deliver(old(queues), SubscribedIn(old(subscribers), old(subscribers.Keys)), msg)
      ensures !panicked ==> closed == old(closed) + Full(SubscribedIn(old(subscribers), old(subscribers.Keys)), old(queues))
      ensures productOf == old(productOf)
    {
      if !Open() {
        return true;
      }
      panicked := false;
      ghost var subs0, queues0, closed0, productOf0 := subscribers, queues, closed, productOf;
      assert Thinned(subs0, queues0, {}) == subs0;
      assert SubscribedIn(subs0, {}) == {};
      assert Deliver(queues0, {}, msg) == queues0;
      var todo := subscribers.Keys;
      ghost var done: set<ClientId> := {};
      while todo != {}
        invariant Valid() && Open()
        invariant todo <= subs0.Keys
        invariant forall q, c :: q in subs0 && c in subs0[q] ==> c in productOf0 && productOf0[c] == q
        invariant subscribers == Thinned(subs0, queues0, subs0.Keys - todo)
        invariant done == SubscribedIn(subs0, subs0.Keys - todo)
        invariant queues == Deliver(queues0, done, msg)
        invariant closed == closed0 + Full(done, queues0)
        invariant productOf == productOf0
        decreases todo
      {
        var p :| p in todo;
        BroadcastRound(p, msg, subs0, queues0, closed0, productOf0, todo, done);
        done := done + subs0[p];
        todo := todo - {p};
      }
      assert subs0.Keys - todo == subs0.Keys;
    }

    /** One round of Run's broadcast loop: the clients of p are offered the message. */
    method BroadcastRound(p: string, msg: Message, ghost subs0: Subscribers, ghost queues0: map<ClientId, seq<Message>>,
                          ghost closed0: set<ClientId>, ghost productOf0: map<ClientId, string>,
                          ghost todo: set<string>, ghost done: set<ClientId>)
      requires Valid() && Open()
      requires p in todo && todo <= subs0.Keys
      requires forall q, c :: q in subs0 && c in subs0[q] ==> c in productOf0 && productOf0[c] == q
      requires subscribers == Thinned(subs0, queues0, subs0.Keys - todo)
      requires done == SubscribedIn(subs0, subs0.Keys - todo)
      requires queues == Deliver(queues0, done, msg)
      requires closed == closed0 + Full(done, queues0)
      requires productOf == productOf0
      modifies this
      ensures Valid() && Open()
      ensures subscribers == Thinned(subs0, queues0, subs0.Keys - (todo - {p}))
      ensures done + subs0[p] == SubscribedIn(subs0, subs0.Keys - (todo - {p}))
      ensures queues == Deliver(queues0, done + subs0[p], msg)
      ensures closed == closed0 + Full(done + subs0[p], queues0)
      ensures productOf == productOf0
    {
      BroadcastStep(subs0, queues0, todo, done, p, productOf0, msg);
      assert subscribers[p] == subs0[p];
      assert subscribers[p] !! closed by {
        forall c | c in subscribers[p] ensures c !in closed {
        }
      }
      var dropped := Offer(p, msg);
    }

    /**
     * writePump, one wake-up: with messages queued, the first one and all
     * queued behind it go out as one frame, separated by newlines, in queue
     * order; an empty closed channel yields the close frame; an empty open
     * one waits.
     */
    method WritePump(c: ClientId) returns (w: WriteStep)
      requires Valid() && c in queues
      modifies this
      ensures Valid() && (old(Open()) ==> Open())
      ensures old(queues[c]) != [] ==> w == Frame(Join(old(queues[c]), '\n')) && queues == old(queues)[c := []]
      ensures old(queues[c]) == [] ==> queues == old(queues) && w == (if c in closed then CloseFrame else Waiting)
      ensures subscribers == old(subscribers) && productOf == old(productOf) && closed == old(closed)
    {
      var q := queues[c];
      if q == [] {
        return if c in closed then CloseFrame else Waiting;
      }
      var frame := q[0];
      var i := 1;
      while i < |q|
        invariant 1 <= i <= |q|
        invariant frame == Join(q[..i], '\n')
        invariant unchanged(this)
      {
        JoinSnoc(q[..i], q[i], '\n');
        assert q[..i + 1] == q[..i] + [q[i]];
        frame := frame + "\n" + q[i];
        i := i + 1;
      }
      assert q[..i] == q;
      queues := queues[c := []];
      w := Frame(frame);
    }
  }

  /** A parsed client message: its "type" and "productId" fields. */
  datatype ClientMessage = ClientMessage(kind: string, productId: string)

  predicate IsSubscribeRequest(msg: Option<ClientMessage>)
  {
    msg.Some? && (msg.value.kind == "subscribe" || msg.value.kind == "subscribe_rankings") && msg.value.productId != ""
  }

  datatype WriteStep = Frame(text: string) | CloseFrame | Waiting

  /** A frame splits back into the queued messages when none of them holds a newline. */
  lemma FrameSplitsBack(msgs: seq<Message>)
    requires |msgs| >= 1 && forall i :: 0 <= i < |msgs| ==> '\n' !in msgs[i]
    ensures Split(Join(msgs, '\n'), '\n') == msgs
  {
    SplitJoin(msgs, '\n');
  }

  // -------------------------------------------------------------------
  // ServeWS: the token's claims

  /** A JSON claim value: a number, a string, or anything else (including absent). */
  datatype Claim = NumberClaim(x: real) | StringClaim(s: string) | OtherClaim

  /** Rounds to the nearest integer, ties to even, as %.0f does. */
  function RoundHalfEven(x: real): (n: int)
    ensures -0.5 <= n as real - x <= 0.5
    ensures (n as real - x == 0.5 || x - n as real == 0.5) ==> n % 2 == 0
  {
    var f := x.Floor;
    var d := x - f as real;
    if d < 0.5 then f
    else if d > 0.5 then f + 1
    else if f % 2 == 0 then f else f + 1
  }

  /** fmt.Sprintf("%.0f", x): a negative value that rounds to zero prints as "-0". */
  function FormatFloat0(x: real): string
  {
    var n := RoundHalfEven(x);
    if n == 0 && x < 0.0 then "-0" else FormatInt(n)
  }

  /** The user id taken from the "sub" claim; None rejects the connection. */
  function UserIDFromClaim(sub: Claim): (id: Option<string>)
    ensures sub.StringClaim? ==> id == Some(sub.s)
    ensures sub.OtherClaim? <==> id.None?
  {
    match sub
    case NumberClaim(x) => Some(FormatFloat0(x))
    case StringClaim(s) => Some(s)
    case OtherClaim => None
  }

  /** The (userID, username) pair ServeWS accepts; the username claim must be a string. */
  function Identity(sub: Claim, username: Claim): (r: Option<(string, string)>)
    ensures r.Some? <==> !sub.OtherClaim? && username.StringClaim?
  {
    match UserIDFromClaim(sub)
    case None => None
    case Some(id) => if username.StringClaim? then Some((id, username.s)) else None
  }

  /** A whole-number sub claim becomes its decimal text, which ParseUint reads back to the same id. */
  lemma NumericSubRoundTrip(n: nat)
    ensures UserIDFromClaim(NumberClaim(n as real)) == Some(FormatNat(n))
    ensures n <= MaxUint32 ==> ParseUint32(FormatNat(n)) == Parsed(n, true)
  {
    assert RoundHalfEven(n as real) == n;
    ParseFormatNat(n);
  }
}
