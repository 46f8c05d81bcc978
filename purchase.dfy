/** commands/purchase.js, the buyer's side: the order ID, the per-product order
    queue with its debounce timer, the greedy allocation of units to the
    drained orders, and the `/purchase` command that charges the buyer and
    queues the order. The delivery pass itself is in module `Batch`. */
module Purchase {
  import opened Text
  import opened Ids
  import opened Stock
  import opened Database

  /** generateOrderId: `ORDER-` and three groups of five. */
  method GenerateOrderId(picks: seq<nat>) returns (id: string)
    requires |picks| == 15 && forall k :: 0 <= k < |picks| ==> picks[k] < |Alphabet|
    ensures Shaped(id, "ORDER-", 3) && Filled(id, "ORDER-", picks)
    ensures |id| == 23 && '_' !in id && Upper(id) == id
  {
    id := RandomId("ORDER-", 3, picks);
    assert "ORDER-"[..] == ['O', 'R', 'D', 'E', 'R', '-'];
    ShapedNoUnderscore(id, "ORDER-", 3);
    ShapedIsUpper(id, "ORDER-", 3);
  }

  /** An entry of a product's queue (the Discord client is left out). */
  datatype QueuedOrder = QueuedOrder(orderId: string, userId: string, quantity: nat)

  /** `{ orders, processing }` */
  datatype Queue = Queue(orders: seq<QueuedOrder>, processing: bool)

  /** orderQueue and the timers armed by setTimeout, one multiset element per
      pending timer. A timer firing is an explicit step (TimerFire). */
  class Coordinator {
    var queues: map<string, Queue>
    var timers: multiset<string>

    /** No order is stranded: a queue that is idle but holds orders always has
        a timer armed that will drain it. */
    ghost predicate Valid()
      reads this
    {
      forall p :: p in queues && !queues[p].processing && queues[p].orders != [] ==> p in timers
    }

    constructor ()
      ensures queues == map[] && timers == multiset{} && Valid()
    {
      queues := map[];
      timers := multiset{};
    }

    /** queueOrder: create the queue on first use, append, and arm a timer
        unless a pass is running. */
    method Enqueue(product: string, order: QueuedOrder)
      requires Valid()
      modifies this
      ensures Valid()
      ensures product in old(queues) ==>
        queues == old(queues)[product := old(queues)[product].(orders := old(queues)[product].orders + [order])]
      ensures product !in old(queues) ==> queues == old(queues)[product := Queue([order], false)]
      ensures timers == if product in old(queues) && old(queues)[product].processing
                        then old(timers) else old(timers) + multiset{product}
    {
      if product !in queues {
        queues := queues[product := Queue([], false)];
      }
      var q := queues[product];
      assert product !in old(queues) ==> q.orders + [order] == [order];
      queues := queues[product := q.(orders := q.orders + [order])];
      if !q.processing {
        timers := timers + multiset{product};
      }
    }

    /** The timer's call to processBatchOrders, up to the start of the pass:
        nothing happens to a missing, empty or busy queue; otherwise the whole
        pending list is drained and the queue is marked busy. */
    method TimerFire(product: string) returns (batch: seq<QueuedOrder>)
      requires Valid() && product in timers
      modifies this
      ensures Valid()
      ensures timers == old(timers) - multiset{product}
      ensures batch == if product in old(queues) && !old(queues)[product].processing
                       then old(queues)[product].orders else []
      ensures batch != [] ==> queues == old(queues)[product := Queue([], true)]
      ensures batch == [] ==> queues == old(queues)
    {
      timers := timers - multiset{product};
      batch := [];
      if product in queues && queues[product].orders != [] && !queues[product].processing {
        batch := queues[product].orders;
        queues := queues[product := Queue([], true)];
      }
    }

    /** The `finally` of processBatchOrders, reached whether the pass completed
        or threw: the queue is idle again and is re-armed iff orders arrived
        during the pass. */
    method FinishPass(product: string)
      requires Valid() && product in queues
      modifies this
      ensures Valid()
      ensures queues == old(queues)[product := old(queues)[product].(processing := false)]
      ensures timers == if old(queues)[product].orders != [] then old(timers) + multiset{product} else old(timers)
    {
      queues := queues[product := queues[product].(processing := false)];
      if queues[product].orders != [] {
        timers := timers + multiset{product};
      }
    }
  }

  function Min(a: nat, b: nat): nat {
    if a <= b then a else b
  }

  function Sum(qs: seq<nat>): nat {
    if qs == [] then 0 else qs[0] + Sum(qs[1..])
  }

  /** The quantities of a batch: `orders.map(o => o.quantity)`. */
  function Quantities(batch: seq<QueuedOrder>): (r: seq<nat>)
    ensures |r| == |batch|
    ensures forall k :: 0 <= k < |batch| ==> r[k] == batch[k].quantity
  {
    if batch == [] then [] else [batch[0].quantity] + Quantities(batch[1..])
  }

  /** What each order of the batch receives: the next `min(quantity, left)`
      units from the front of the list, in batch order. */
  function Allocation<T>(units: seq<T>, qs: seq<nat>): (r: seq<seq<T>>)
    ensures |r| == |qs|
  {
    if qs == [] then []
    else
      var n := Min(qs[0], |units|);
      [units[..n]] + Allocation(units[n..], qs[1..])
  }

  /** Concatenated, the slices are exactly the front of the unit list, as long
      as the smaller of the total ordered and the units available: consecutive,
      disjoint, in order, nothing skipped and nothing handed out twice. */
  lemma {:induction false} AllocationConsumes<T>(units: seq<T>, qs: seq<nat>)
    ensures Flatten(Allocation(units, qs)) == units[..Min(Sum(qs), |units|)]
    decreases |qs|
  {
    if qs != [] {
      var n := Min(qs[0], |units|);
      AllocationConsumes(units[n..], qs[1..]);
      var m := Min(Sum(qs[1..]), |units| - n);
      var a := Allocation(units, qs);
      assert a[0] == units[..n] && a[1..] == Allocation(units[n..], qs[1..]);
      assert Min(Sum(qs), |units|) == n + m;
      PrefixSplit(units, n, m);
    }
  }

  lemma PrefixSplit<T>(units: seq<T>, n: nat, m: nat)
    requires n + m <= |units|
    ensures units[..n] + units[n..][..m] == units[..n + m]
  {
  }

  /** Order k receives `min(quantity, what the earlier orders left)`. */
  lemma {:induction false} AllocationShare<T>(units: seq<T>, qs: seq<nat>, k: nat)
    requires k < |qs|
    ensures |Allocation(units, qs)[k]| == Min(qs[k], |units| - Min(Sum(qs[..k]), |units|))
    decreases k
  {
    var n := Min(qs[0], |units|);
    if k > 0 {
      AllocationShare(units[n..], qs[1..], k - 1);
      assert qs[..k] == [qs[0]] + qs[1..][..k - 1];
      assert Sum(qs[..k]) == qs[0] + Sum(qs[1..][..k - 1]);
    }
  }

  /** The allocation is first come, first served: an order receives anything
      only if every earlier order of the batch was served in full. */
  lemma {:induction false} FirstComeFirstServed<T>(units: seq<T>, qs: seq<nat>, j: nat, k: nat)
    requires j < k < |qs| && |Allocation(units, qs)[k]| > 0
    ensures |Allocation(units, qs)[j]| == qs[j]
    decreases j
  {
    var n := Min(qs[0], |units|);
    if j == 0 {
      AllocationShare(units[n..], qs[1..], k - 1);
    } else {
      FirstComeFirstServed(units[n..], qs[1..], j - 1, k - 1);
    }
  }

  lemma AllocationUnfold<T>(units: seq<T>, qs: seq<nat>, i: nat, o: nat)
    requires i <= |units| && o < |qs|
    ensures Allocation(units[i..], qs[o..]) ==
      [units[i..i + Min(qs[o], |units| - i)]] + Allocation(units[i + Min(qs[o], |units| - i)..], qs[o + 1..])
  {
    var n := Min(qs[o], |units| - i);
    assert qs[o..][0] == qs[o] && qs[o..][1..] == qs[o + 1..];
    assert units[i..][..n] == units[i..i + n] && units[i..][n..] == units[i + n..];
  }

  /** The inner loop of the allocation: up to `needed` units from `accountIndex` on. */
  method TakeUnits(valid: seq<Unit>, accountIndex: nat, needed: nat) returns (accountsForOrder: seq<Unit>, next: nat)
    requires accountIndex <= |valid|
    ensures next == accountIndex + Min(needed, |valid| - accountIndex)
    ensures accountsForOrder == valid[accountIndex..next]
  {
    accountsForOrder := [];
    next := accountIndex;
    var i := 0;
    while i < needed && next < |valid|
      invariant accountIndex <= next <= |valid| && i == next - accountIndex && i <= needed
      invariant accountsForOrder == valid[accountIndex..next]
    {
      accountsForOrder := accountsForOrder + [valid[next]];
      next := next + 1;
      i := i + 1;
    }
  }

  /** The allocation loop of processBatchedOrders (commands/purchase.js:199-213):
      `accountIndex` walks the valid units once; what it has not reached is the
      remainder that line mode writes back. */
  method Allocate(batch: seq<QueuedOrder>, valid: seq<Unit>) returns (allocs: seq<seq<Unit>>, used: nat)
    ensures allocs == Allocation(valid, Quantities(batch))
    ensures used == Min(Sum(Quantities(batch)), |valid|)
    ensures valid[..used] == Flatten(allocs)
  {
    var qs := Quantities(batch);
    allocs := [];
    var accountIndex := 0;
    var o := 0;
    assert valid[0..] == valid && qs[0..] == qs;
    while o < |batch|
      invariant Allocating(valid, qs, o, accountIndex, allocs)
    {
      var accountsForOrder, next := TakeUnits(valid, accountIndex, batch[o].quantity);
      AllocateAdvance(valid, qs, o, accountIndex, allocs);
      allocs := allocs + [accountsForOrder];
      accountIndex := next;
      o := o + 1;
    }
    used := accountIndex;
    assert qs[o..] == [];
    AllocationConsumes(valid, qs);
  }

  /** The state of the allocation loop before order o: the orders before it
      hold the units before `accountIndex`, and allocating the rest from there
      completes the allocation. */
  predicate Allocating(units: seq<Unit>, qs: seq<nat>, o: nat, accountIndex: nat, allocs: seq<seq<Unit>>) {
    o <= |qs| && accountIndex <= |units|
    && allocs + Allocation(units[accountIndex..], qs[o..]) == Allocation(units, qs)
    && Flatten(allocs) == units[..accountIndex]
  }

  lemma AllocateAdvance(units: seq<Unit>, qs: seq<nat>, o: nat, accountIndex: nat, allocs: seq<seq<Unit>>)
    requires Allocating(units, qs, o, accountIndex, allocs) && o < |qs|
    ensures var next := accountIndex + Min(qs[o], |units| - accountIndex);
      Allocating(units, qs, o + 1, next, allocs + [units[accountIndex..next]])
  {
    var next := accountIndex + Min(qs[o], |units| - accountIndex);
    var share := units[accountIndex..next];
    AllocationUnfold(units, qs, accountIndex, o);
    var rest := Allocation(units[next..], qs[o + 1..]);
    assert allocs + [share] + rest == allocs + ([share] + rest);
    FlattenAppend(allocs, share);
    assert units[..accountIndex] + share == units[..next];
  }

  /** The answers of `/purchase`. */
  datatype Reply =
    | Blacklisted
    | NotFound
    | NotEnoughStock(available: int, requested: nat)
    | OnCooldown(minutes: int, seconds: int)
    | Insufficient(cost: int, balance: int)
    | Created(orderId: string)
    | Failed

  /** The wait left before the cooldown ends, when it has not ended: the
      milliseconds left rounded up to whole seconds (`Math.ceil`), given as
      minutes and seconds. */
  function CooldownWait(lastPurchase: int, cooldown: int, now: int): (r: Option<(int, int)>)
    ensures r.None? <==> now >= lastPurchase + cooldown * 1000
    ensures r.Some? ==> 0 <= r.value.0 && 0 <= r.value.1 < 60
    ensures r.Some? ==> (r.value.0 * 60 + r.value.1 - 1) * 1000 < lastPurchase + cooldown * 1000 - now
                        <= (r.value.0 * 60 + r.value.1) * 1000
  {
    var end := lastPurchase + cooldown * 1000;
    if now < end then
      var remaining := (end - now + 999) / 1000;
      Some((remaining / 60, remaining % 60))
    else None
  }

  /** Why execute refuses a purchase before charging anything, in the order it
      checks: the blacklist, a missing product, the stored stock, the cooldown
      (skipped for holders of the no-cooldown role and for products without
      one) and the balance. */
  function Refusal(products: map<string, Product>, users: map<string, int>, blacklisted: bool,
                   cooldowns: map<(string, string), int>, userId: string, productName: string,
                   quantity: nat, exempt: bool, now: int): (r: Option<Reply>)
    ensures blacklisted ==> r == Some(Blacklisted)
    ensures !blacklisted && productName !in products ==> r == Some(NotFound)
    ensures r.None? <==>
      !blacklisted && productName in products && products[productName].stock >= quantity
      && (exempt || products[productName].cooldown <= 0 || (userId, productName) !in cooldowns
          || now >= cooldowns[(userId, productName)] + products[productName].cooldown * 1000)
      && Balance(users, userId) >= products[productName].price * quantity
  {
    if blacklisted then Some(Blacklisted)
    else if productName !in products then Some(NotFound)
    else
      var p := products[productName];
      if p.stock < quantity then Some(NotEnoughStock(p.stock, quantity))
      else
        var wait := if !exempt && p.cooldown > 0 && (userId, productName) in cooldowns
                    then CooldownWait(cooldowns[(userId, productName)], p.cooldown, now) else None;
        if wait.Some? then Some(OnCooldown(wait.value.0, wait.value.1))
        else if Balance(users, userId) < p.price * quantity then Some(Insufficient(p.price * quantity, Balance(users, userId)))
        else None
  }

  /** The charge of execute: generateOrderId, removeCoins, then addOrder (a
      plain INSERT, which refuses an ID already taken). */
  method Charge(db: Db, userId: string, productName: string, quantity: nat, now: int, picks: seq<nat>)
    returns (orderId: string, ok: bool)
    requires productName in db.products
    requires |picks| == 15 && forall k :: 0 <= k < |picks| ==> picks[k] < |Alphabet|
    modifies db`users, db`orders
    ensures Shaped(orderId, "ORDER-", 3)
    ensures var cost := old(db.products)[productName].price * quantity;
      db.users == old(db.users)[userId := Debited(if userId in old(db.users) then Some(old(db.users)[userId]) else None, cost)]
    ensures ok <==> orderId !in old(db.orders)
    ensures ok ==> db.orders == old(db.orders)[orderId := Order(userId, productName, quantity,
      old(db.products)[productName].price * quantity, old(db.products)[productName].cookieMode, "processing", now, None)]
    ensures !ok ==> db.orders == old(db.orders)
  {
    var p := db.products[productName];
    var totalCost := p.price * quantity;
    orderId := GenerateOrderId(picks);
    db.RemoveCoins(userId, totalCost);
    ok := db.AddOrder(orderId, userId, productName, quantity, totalCost, p.cookieMode, now);
  }

  /** The row addOrder writes for a purchase. */
  function NewOrder(products: map<string, Product>, userId: string, productName: string,
                    quantity: nat, now: int): (r: Order)
    requires productName in products
    ensures r.status == "processing" && r.completedAt.None? && r.userId == userId
    ensures r.totalCost == products[productName].price * quantity
  {
    var p := products[productName];
    Order(userId, productName, quantity, p.price * quantity, p.cookieMode, "processing", now, None)
  }

  /** execute, as written. `created` is the order row it inserted, if any.
      After the charge and the new row, the "being processed" DM
      (commands/purchase.js:447) is not guarded, so when it fails (`dmFails`)
      the catch answers "Failed to create order!" and the order is never
      queued, although the buyer has paid and the row says 'processing'. */
  method Execute(db: Db, coord: Coordinator, userId: string, productName: string, quantity: nat,
                 exempt: bool, now: int, picks: seq<nat>, dmFails: bool)
    returns (reply: Reply, created: Option<string>)
    requires 1 <= quantity <= 50
    requires |picks| == 15 && forall k :: 0 <= k < |picks| ==> picks[k] < |Alphabet|
    requires coord.Valid()
    modifies db`users, db`orders, coord
    ensures coord.Valid()
    ensures var refusal := Refusal(old(db.products), old(db.users), userId in old(db.blacklist),
                                   old(db.cooldowns), userId, productName, quantity, exempt, now);
      && (refusal.Some? ==> reply == refusal.value && created.None? && db.users == old(db.users)
                            && db.orders == old(db.orders))
      && (refusal.None? ==> reply.Created? || reply == Failed)
      && (refusal.None? ==> db.users == old(db.users)[userId := Debited(
            if userId in old(db.users) then Some(old(db.users)[userId]) else None,
            old(db.products)[productName].price * quantity)])
      && (refusal.None? && created.None? ==>
            (reply == Failed && db.orders == old(db.orders)
             && exists id :: id in old(db.orders) && Shaped(id, "ORDER-", 3)))
      && (reply.Created? <==> refusal.None? && created.Some? && !dmFails)
    ensures created.Some? ==>
      productName in old(db.products) && created.value !in old(db.orders) && Shaped(created.value, "ORDER-", 3)
      && db.orders == old(db.orders)[created.value := NewOrder(old(db.products), userId, productName, quantity, now)]
    ensures reply.Created? ==>
      var o := QueuedOrder(reply.orderId, userId, quantity);
      created == Some(reply.orderId)
      && (productName in old(coord.queues) ==>
            coord.queues == old(coord.queues)[productName := old(coord.queues)[productName].(orders := old(coord.queues)[productName].orders + [o])])
      && (productName !in old(coord.queues) ==> coord.queues == old(coord.queues)[productName := Queue([o], false)])
      && coord.timers == if productName in old(coord.queues) && old(coord.queues)[productName].processing
                         then old(coord.timers) else old(coord.timers) + multiset{productName}
    ensures !reply.Created? ==> coord.queues == old(coord.queues) && coord.timers == old(coord.timers)
  {
    var refusal := Refusal(db.products, db.users, userId in db.blacklist, db.cooldowns,
                           userId, productName, quantity, exempt, now);
    if refusal.Some? {
      return refusal.value, None;
    }
    var orderId, ok := Charge(db, userId, productName, quantity, now, picks);
    if !ok {
      return Failed, None;
    }
    created := Some(orderId);
    if dmFails {
      return Failed, created;
    }
    coord.Enqueue(productName, QueuedOrder(orderId, userId, quantity));
    reply := Created(orderId);
  }

  /** execute with the processing DM caught like the other DMs of the file:
      a buyer who has paid for a new order row always has it queued. */
  method ExecuteGuarded(db: Db, coord: Coordinator, userId: string, productName: string, quantity: nat,
                        exempt: bool, now: int, picks: seq<nat>, dmFails: bool)
    returns (reply: Reply, created: Option<string>)
    requires 1 <= quantity <= 50
    requires |picks| == 15 && forall k :: 0 <= k < |picks| ==> picks[k] < |Alphabet|
    requires coord.Valid()
    modifies db`users, db`orders, coord
    ensures coord.Valid()
    ensures var refusal := Refusal(old(db.products), old(db.users), userId in old(db.blacklist),
                                   old(db.cooldowns), userId, productName, quantity, exempt, now);
      && (refusal.Some? ==> reply == refusal.value && created.None? && db.users == old(db.users)
                            && db.orders == old(db.orders))
      && (refusal.None? ==> reply.Created? || reply == Failed)
      && (refusal.None? ==> db.users == old(db.users)[userId := Debited(
            if userId in old(db.users) then Some(old(db.users)[userId]) else None,
            old(db.products)[productName].price * quantity)])
      && (refusal.None? && created.None? ==>
            (reply == Failed && db.orders == old(db.orders)
             && exists id :: id in old(db.orders) && Shaped(id, "ORDER-", 3)))
      && (reply.Created? <==> refusal.None? && created.Some?)
    ensures created.Some? ==>
      productName in old(db.products) && created.value !in old(db.orders)
      && db.orders == old(db.orders)[created.value := NewOrder(old(db.products), userId, productName, quantity, now)]
    ensures reply.Created? ==>
      var o := QueuedOrder(reply.orderId, userId, quantity);
      created == Some(reply.orderId)
      && (productName in old(coord.queues) ==>
            coord.queues == old(coord.queues)[productName := old(coord.queues)[productName].(orders := old(coord.queues)[productName].orders + [o])])
      && (productName !in old(coord.queues) ==> coord.queues == old(coord.queues)[productName := Queue([o], false)])
      && coord.timers == if productName in old(coord.queues) && old(coord.queues)[productName].processing
                         then old(coord.timers) else old(coord.timers) + multiset{productName}
    ensures !reply.Created? ==> coord.queues == old(coord.queues) && coord.timers == old(coord.timers)
  {
    var refusal := Refusal(db.products, db.users, userId in db.blacklist, db.cooldowns,
                           userId, productName, quantity, exempt, now);
    if refusal.Some? {
      return refusal.value, None;
    }
    var orderId, ok := Charge(db, userId, productName, quantity, now, picks);
    if !ok {
      return Failed, None;
    }
    created := Some(orderId);
    coord.Enqueue(productName, QueuedOrder(orderId, userId, quantity));
    reply := Created(orderId);
  }

  /** A buyer with exactly enough coins whose processing DM fails: the coins
      are gone, the order row says 'processing' and nothing is queued. */
  method StrandedOrderWitness(picks: seq<nat>) returns (reply: Reply, balance: int, status: string, queued: bool)
    requires |picks| == 15 && forall k :: 0 <= k < |picks| ==> picks[k] < |Alphabet|
    ensures reply == Failed && balance == 0 && status == "processing" && !queued
  {
    var db := new Db();
    db.AddProduct("alts", 5, 0, false, 0, "email:pass", 0);
    db.UpdateStock("alts", 2);
    db.AddCoins("buyer", 10);
    var coord := new Coordinator();
    assert db.products == map["alts" := Product(5, 0, false, 2, 0, 0, "email:pass")];
    assert db.users == map["buyer" := 10] && db.blacklist == map[] && db.cooldowns == map[] && db.orders == map[];
    assert Refusal(db.products, db.users, "buyer" in db.blacklist, db.cooldowns, "buyer", "alts", 2, false, 0).None?;
    var created;
    reply, created := Execute(db, coord, "buyer", "alts", 2, false, 0, picks, true);
    balance := db.users["buyer"];
    status := db.orders[created.value].status;
    queued := "alts" in coord.queues;
  }

  /** ExecuteGuarded in the same situation queues the paid order. */
  method QueuedOrderWitness(picks: seq<nat>) returns (reply: Reply, balance: int, queued: bool)
    requires |picks| == 15 && forall k :: 0 <= k < |picks| ==> picks[k] < |Alphabet|
    ensures reply.Created? && balance == 0 && queued
  {
    var db := new Db();
    db.AddProduct("alts", 5, 0, false, 0, "email:pass", 0);
    db.UpdateStock("alts", 2);
    db.AddCoins("buyer", 10);
    var coord := new Coordinator();
    assert db.products == map["alts" := Product(5, 0, false, 2, 0, 0, "email:pass")];
    assert db.users == map["buyer" := 10] && db.blacklist == map[] && db.cooldowns == map[] && db.orders == map[];
    assert Refusal(db.products, db.users, "buyer" in db.blacklist, db.cooldowns, "buyer", "alts", 2, false, 0).None?;
    var created;
    reply, created := ExecuteGuarded(db, coord, "buyer", "alts", 2, false, 0, picks, true);
    balance := db.users["buyer"];
    queued := "alts" in coord.queues;
  }
}
