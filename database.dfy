/** The SQLite tables of utils/database.js as maps keyed by their primary key.
    Every statement runs on its own: a plain INSERT on an existing key fails
    (reported as `ok == false`), INSERT OR REPLACE and ON CONFLICT upsert, and
    an UPDATE of a missing row changes nothing. Timestamps are milliseconds. */
module Database {
  import opened Text
  import opened Stock

  /** A products row. `price` is a whole number of coins. */
  datatype Product = Product(price: int, cooldown: int, cookieMode: bool, stock: int,
                             createdAt: int, precheckLevel: int, precheckType: string)

  datatype Key = Key(coinAmount: int, redeemed: bool, redeemedBy: Option<string>,
                     createdAt: int, redeemedAt: Option<int>)

  datatype Blacklisting = Blacklisting(addedAt: int, addedBy: string)

  datatype Deposit = Deposit(userId: string, coinAmount: int, currency: string, status: string,
                             createdAt: int, completedAt: Option<int>)

  datatype Order = Order(userId: string, productName: string, quantity: int, totalCost: int,
                         cookieMode: bool, status: string, createdAt: int, completedAt: Option<int>)

  datatype Refund = Refund(orderId: string, userId: string, requestedAmount: int, reason: string,
                           proofLinks: string, status: string, adminResponse: Option<string>,
                           approvedAmount: Option<int>, createdAt: int, processedAt: Option<int>,
                           processedBy: Option<string>)

  /** A row of syncAllProductStock's report. */
  datatype SyncResult = SyncResult(name: string, oldStock: int, newStock: int, difference: int)

  /** `completed_at` as updateOrderStatus and updateDepositStatus set it: the
      time of the update for 'completed', NULL for every other status. */
  function CompletedAt(status: string, now: int): (r: Option<int>)
    ensures r.Some? <==> status == "completed"
    ensures r.Some? ==> r.value == now
  {
    if status == "completed" then Some(now) else None
  }

  /** `coins = MAX(0, coins - amount)`, and 0 for a user without a row. */
  function Debited(balance: Option<int>, amount: int): (r: int)
    ensures r >= 0
    ensures balance.None? ==> r == 0
    ensures balance.Some? && balance.value >= amount ==> r == balance.value - amount
    ensures balance.Some? && balance.value < amount ==> r == 0
  {
    match balance
    case None => 0
    case Some(b) => if b - amount > 0 then b - amount else 0
  }

  /** `userCoins ? userCoins.coins : 0` */
  function Balance(users: map<string, int>, userId: string): int {
    if userId in users then users[userId] else 0
  }

  /** The cooldown rows left after `DELETE FROM user_cooldowns WHERE user_id = ?`. */
  function WithoutUser(cooldowns: map<(string, string), int>, userId: string): (r: map<(string, string), int>)
    ensures forall k :: k in r <==> k in cooldowns && k.0 != userId
    ensures forall k :: k in r ==> r[k] == cooldowns[k]
  {
    map k | k in cooldowns && k.0 != userId :: cooldowns[k]
  }

  /** The report entry for one product: present exactly when the stored stock
      differs from the disk count, with `difference = actual - stored`. */
  function SyncStep(name: string, p: Product, lineFiles: map<string, string>, dirs: map<string, seq<Entry>>): (r: seq<SyncResult>)
    ensures |r| <= 1
    ensures r == [] <==> p.stock == ActualCount(lineFiles, dirs, name, p.cookieMode)
    ensures r != [] ==> (r[0].name == name && r[0].oldStock == p.stock
      && r[0].newStock == ActualCount(lineFiles, dirs, name, p.cookieMode)
      && r[0].difference == r[0].newStock - r[0].oldStock)
  {
    var actual := ActualCount(lineFiles, dirs, name, p.cookieMode);
    if actual != p.stock then [SyncResult(name, p.stock, actual, actual - p.stock)] else []
  }

  /** The products whose stored stock differs from the disk, in listing order. */
  function SyncReport(names: seq<string>, products: map<string, Product>,
                      lineFiles: map<string, string>, dirs: map<string, seq<Entry>>): (r: seq<SyncResult>)
    requires forall k :: 0 <= k < |names| ==> names[k] in products
    ensures |r| <= |names|
  {
    if names == [] then []
    else SyncStep(names[0], products[names[0]], lineFiles, dirs) + SyncReport(names[1..], products, lineFiles, dirs)
  }

  /** Every reported row is a listed product whose stored stock differs from the
      disk count, with the old and new counts and their difference. */
  lemma {:induction false} SyncReportSound(names: seq<string>, products: map<string, Product>,
                                           lineFiles: map<string, string>, dirs: map<string, seq<Entry>>)
    requires forall k :: 0 <= k < |names| ==> names[k] in products
    ensures forall r :: r in SyncReport(names, products, lineFiles, dirs) ==>
      r.name in names && r.difference == r.newStock - r.oldStock && r.difference != 0
      && r.oldStock == products[r.name].stock
      && r.newStock == ActualCount(lineFiles, dirs, r.name, products[r.name].cookieMode)
    decreases |names|
  {
    if names != [] {
      SyncReportSound(names[1..], products, lineFiles, dirs);
    }
  }

  lemma SyncReportUnfold(names: seq<string>, i: int, products: map<string, Product>,
                         lineFiles: map<string, string>, dirs: map<string, seq<Entry>>)
    requires 0 <= i < |names| && forall k :: 0 <= k < |names| ==> names[k] in products
    ensures SyncReport(names[i..], products, lineFiles, dirs)
      == SyncStep(names[i], products[names[i]], lineFiles, dirs) + SyncReport(names[i + 1..], products, lineFiles, dirs)
  {
    assert names[i..][1..] == names[i + 1..];
  }

  /** A product missing from the report already had the disk count stored. */
  lemma {:induction false} SyncReportComplete(names: seq<string>, products: map<string, Product>,
                                              lineFiles: map<string, string>, dirs: map<string, seq<Entry>>, n: string)
    requires forall k :: 0 <= k < |names| ==> names[k] in products
    requires n in names
    requires forall r :: r in SyncReport(names, products, lineFiles, dirs) ==> r.name != n
    ensures products[n].stock == ActualCount(lineFiles, dirs, n, products[n].cookieMode)
    decreases |names|
  {
    var step := SyncStep(names[0], products[names[0]], lineFiles, dirs);
    var rest := SyncReport(names[1..], products, lineFiles, dirs);
    var all := SyncReport(names, products, lineFiles, dirs);
    if names[0] == n {
      assert all != [] ==> all[0] in all;
    } else {
      assert n in names[1..];
      assert all == step + rest;
      SyncReportComplete(names[1..], products, lineFiles, dirs, n);
    }
  }

  /** A products row with its stock set to the count on disk. */
  function Synced(p: Product, lineFiles: map<string, string>, dirs: map<string, seq<Entry>>, name: string): Product {
    p.(stock := ActualCount(lineFiles, dirs, name, p.cookieMode))
  }

  /** The products table while syncAllProductStock is at `names[i]`: the rows
      before it synced, the rest as they were. */
  predicate SyncedUpTo(products: map<string, Product>, before: map<string, Product>, names: seq<string>, i: nat,
                       lineFiles: map<string, string>, dirs: map<string, seq<Entry>>)
  {
    i <= |names| && products.Keys == before.Keys
    && forall n :: n in products ==>
         products[n] == if n in names[..i] then Synced(before[n], lineFiles, dirs, n) else before[n]
  }

  /** The row at `names[i]` is still as it was. */
  lemma SyncPending(products: map<string, Product>, before: map<string, Product>, names: seq<string>, i: nat,
                    lineFiles: map<string, string>, dirs: map<string, seq<Entry>>)
    requires SyncedUpTo(products, before, names, i, lineFiles, dirs) && i < |names| && Distinct(names)
    requires forall n :: n in names <==> n in before
    ensures names[i] in products && products[names[i]] == before[names[i]]
  {
    assert names[i] in names;
    assert forall j :: 0 <= j < i ==> names[..i][j] == names[j] != names[i];
  }

  /** Syncing the row at `names[i]` moves the sync one row on. */
  lemma SyncAdvance(products: map<string, Product>, before: map<string, Product>, names: seq<string>, i: nat,
                    lineFiles: map<string, string>, dirs: map<string, seq<Entry>>)
    requires SyncedUpTo(products, before, names, i, lineFiles, dirs) && i < |names| && Distinct(names)
    requires forall n :: n in names <==> n in before
    ensures SyncedUpTo(products[names[i] := Synced(products[names[i]], lineFiles, dirs, names[i])],
                       before, names, i + 1, lineFiles, dirs)
  {
    SyncPending(products, before, names, i, lineFiles, dirs);
    assert names[..i + 1] == names[..i] + [names[i]];
  }

  lemma ReportAdvance(results: seq<SyncResult>, step: seq<SyncResult>, names: seq<string>, i: nat,
                      products: map<string, Product>, lineFiles: map<string, string>, dirs: map<string, seq<Entry>>)
    requires i < |names| && forall k :: 0 <= k < |names| ==> names[k] in products
    requires results + SyncReport(names[i..], products, lineFiles, dirs) == SyncReport(names, products, lineFiles, dirs)
    requires step == SyncStep(names[i], products[names[i]], lineFiles, dirs)
    ensures results + step + SyncReport(names[i + 1..], products, lineFiles, dirs) == SyncReport(names, products, lineFiles, dirs)
  {
    SyncReportUnfold(names, i, products, lineFiles, dirs);
    assert results + step + SyncReport(names[i + 1..], products, lineFiles, dirs)
        == results + (step + SyncReport(names[i + 1..], products, lineFiles, dirs));
  }

  /** The state of syncAllProductStock at `names[i]`: the rows before it are
      synced and reported. */
  predicate SyncLoop(products: map<string, Product>, before: map<string, Product>, names: seq<string>, i: nat,
                     results: seq<SyncResult>, lineFiles: map<string, string>, dirs: map<string, seq<Entry>>)
  {
    SyncedUpTo(products, before, names, i, lineFiles, dirs)
    && (forall k :: 0 <= k < |names| ==> names[k] in before)
    && results + SyncReport(names[i..], before, lineFiles, dirs) == SyncReport(names, before, lineFiles, dirs)
  }

  lemma SyncStart(products: map<string, Product>, names: seq<string>,
                  lineFiles: map<string, string>, dirs: map<string, seq<Entry>>)
    requires forall n :: n in names <==> n in products
    ensures SyncLoop(products, products, names, 0, [], lineFiles, dirs)
  {
    assert names[0..] == names;
  }

  lemma SyncLoopStep(products: map<string, Product>, before: map<string, Product>, names: seq<string>, i: nat,
                     results: seq<SyncResult>, lineFiles: map<string, string>, dirs: map<string, seq<Entry>>)
    requires SyncLoop(products, before, names, i, results, lineFiles, dirs) && i < |names| && Distinct(names)
    requires forall n :: n in names <==> n in before
    ensures names[i] in products && products[names[i]] == before[names[i]]
    ensures SyncLoop(products[names[i] := Synced(products[names[i]], lineFiles, dirs, names[i])], before, names, i + 1,
                     results + SyncStep(names[i], products[names[i]], lineFiles, dirs), lineFiles, dirs)
  {
    SyncPending(products, before, names, i, lineFiles, dirs);
    SyncAdvance(products, before, names, i, lineFiles, dirs);
    ReportAdvance(results, SyncStep(names[i], before[names[i]], lineFiles, dirs), names, i, before, lineFiles, dirs);
  }

  lemma SyncLoopEnd(products: map<string, Product>, before: map<string, Product>, names: seq<string>, i: nat,
                    results: seq<SyncResult>, lineFiles: map<string, string>, dirs: map<string, seq<Entry>>)
    requires SyncLoop(products, before, names, i, results, lineFiles, dirs) && i >= |names|
    requires forall n :: n in names <==> n in before
    ensures results == SyncReport(names, before, lineFiles, dirs)
    ensures products.Keys == before.Keys
    ensures forall n :: n in products ==> products[n] == Synced(before[n], lineFiles, dirs, n)
  {
    assert names[..i] == names && names[i..] == [];
  }

  class Db {
    var products: map<string, Product>
    var keys: map<string, Key>
    var users: map<string, int>
    var blacklist: map<string, Blacklisting>
    var deposits: map<string, Deposit>
    var orders: map<string, Order>
    var refunds: map<string, Refund>
    /** user_cooldowns, keyed by (user_id, product_name), holding last_purchase. */
    var cooldowns: map<(string, string), int>

    constructor ()
      ensures products == map[] && keys == map[] && users == map[] && blacklist == map[]
      ensures deposits == map[] && orders == map[] && refunds == map[] && cooldowns == map[]
    {
      products, keys, users, blacklist := map[], map[], map[], map[];
      deposits, orders, refunds, cooldowns := map[], map[], map[], map[];
    }

    /** addProduct: INSERT OR REPLACE, always with stock 0. */
    method AddProduct(name: string, price: int, cooldown: int, cookieMode: bool,
                      precheckLevel: int, precheckType: string, now: int)
      modifies this`products
      ensures products == old(products)[name := Product(price, cooldown, cookieMode, 0, now, precheckLevel, precheckType)]
    {
      products := products[name := Product(price, cooldown, cookieMode, 0, now, precheckLevel, precheckType)];
    }

    /** removeProduct */
    method RemoveProduct(name: string)
      modifies this`products
      ensures products == old(products) - {name}
    {
      products := products - {name};
    }

    /** updateStock: only an existing row changes. */
    method UpdateStock(name: string, stock: int)
      modifies this`products
      ensures name in old(products) ==> products == old(products)[name := old(products)[name].(stock := stock)]
      ensures name !in old(products) ==> products == old(products)
    {
      if name in products {
        products := products[name := products[name].(stock := stock)];
      }
    }

    /** addKey: a plain INSERT, so an existing key_code is refused; a new key is unredeemed. */
    method AddKey(keyCode: string, coinAmount: int, now: int) returns (ok: bool)
      modifies this`keys
      ensures ok <==> keyCode !in old(keys)
      ensures ok ==> keys == old(keys)[keyCode := Key(coinAmount, false, None, now, None)]
      ensures !ok ==> keys == old(keys)
    {
      ok := keyCode !in keys;
      if ok {
        keys := keys[keyCode := Key(coinAmount, false, None, now, None)];
      }
    }

    /** redeemKey: marks the row redeemed by the user. */
    method RedeemKey(keyCode: string, userId: string, now: int)
      modifies this`keys
      ensures keyCode in old(keys) ==>
        keys == old(keys)[keyCode := old(keys)[keyCode].(redeemed := true, redeemedBy := Some(userId), redeemedAt := Some(now))]
      ensures keyCode !in old(keys) ==> keys == old(keys)
    {
      if keyCode in keys {
        keys := keys[keyCode := keys[keyCode].(redeemed := true, redeemedBy := Some(userId), redeemedAt := Some(now))];
      }
    }

    /** addCoins: creates the row with `amount` or adds `amount` to it. */
    method AddCoins(userId: string, amount: int)
      modifies this`users
      ensures users == old(users)[userId := Balance(old(users), userId) + amount]
    {
      users := users[userId := Balance(users, userId) + amount];
    }

    /** setCoins: creates or overwrites with exactly `amount`. */
    method SetCoins(userId: string, amount: int)
      modifies this`users
      ensures users == old(users)[userId := amount]
    {
      users := users[userId := amount];
    }

    /** removeCoins: clamps at zero; an unknown user gets a row holding 0. */
    method RemoveCoins(userId: string, amount: int)
      modifies this`users
      ensures users == old(users)[userId := Debited(if userId in old(users) then Some(old(users)[userId]) else None, amount)]
    {
      var before := if userId in users then Some(users[userId]) else None;
      users := users[userId := Debited(before, amount)];
    }

    /** addToBlacklist: INSERT OR REPLACE. */
    method AddToBlacklist(userId: string, addedBy: string, now: int)
      modifies this`blacklist
      ensures blacklist == old(blacklist)[userId := Blacklisting(now, addedBy)]
    {
      blacklist := blacklist[userId := Blacklisting(now, addedBy)];
    }

    method RemoveFromBlacklist(userId: string)
      modifies this`blacklist
      ensures blacklist == old(blacklist) - {userId}
    {
      blacklist := blacklist - {userId};
    }

    /** isBlacklisted */
    function IsBlacklisted(userId: string): bool
      reads this
    {
      userId in blacklist
    }

    /** addDeposit: a plain INSERT with status 'pending'. */
    method AddDeposit(invoiceId: string, userId: string, coinAmount: int, currency: string, now: int)
      returns (ok: bool)
      modifies this`deposits
      ensures ok <==> invoiceId !in old(deposits)
      ensures ok ==> deposits == old(deposits)[invoiceId := Deposit(userId, coinAmount, currency, "pending", now, None)]
      ensures !ok ==> deposits == old(deposits)
    {
      ok := invoiceId !in deposits;
      if ok {
        deposits := deposits[invoiceId := Deposit(userId, coinAmount, currency, "pending", now, None)];
      }
    }

    /** updateDepositStatus: sets completed_at for 'completed' and clears it otherwise. */
    method UpdateDepositStatus(invoiceId: string, status: string, now: int)
      modifies this`deposits
      ensures invoiceId in old(deposits) ==>
        deposits == old(deposits)[invoiceId := old(deposits)[invoiceId].(status := status, completedAt := CompletedAt(status, now))]
      ensures invoiceId !in old(deposits) ==> deposits == old(deposits)
    {
      if invoiceId in deposits {
        deposits := deposits[invoiceId := deposits[invoiceId].(status := status, completedAt := CompletedAt(status, now))];
      }
    }

    /** addOrder: a plain INSERT; a new order starts as 'processing'. */
    method AddOrder(orderId: string, userId: string, productName: string, quantity: int,
                    totalCost: int, cookieMode: bool, now: int) returns (ok: bool)
      modifies this`orders
      ensures ok <==> orderId !in old(orders)
      ensures ok ==> orders == old(orders)[orderId := Order(userId, productName, quantity, totalCost, cookieMode, "processing", now, None)]
      ensures !ok ==> orders == old(orders)
    {
      ok := orderId !in orders;
      if ok {
        orders := orders[orderId := Order(userId, productName, quantity, totalCost, cookieMode, "processing", now, None)];
      }
    }

    /** updateOrderStatus: sets completed_at for 'completed' and clears it otherwise. */
    method UpdateOrderStatus(orderId: string, status: string, now: int)
      modifies this`orders
      ensures orderId in old(orders) ==>
        orders == old(orders)[orderId := old(orders)[orderId].(status := status, completedAt := CompletedAt(status, now))]
      ensures orderId !in old(orders) ==> orders == old(orders)
    {
      if orderId in orders {
        orders := orders[orderId := orders[orderId].(status := status, completedAt := CompletedAt(status, now))];
      }
    }

    /** addRefund: a plain INSERT with status 'pending'. */
    method AddRefund(refundId: string, orderId: string, userId: string, requestedAmount: int,
                     reason: string, proofLinks: string, now: int) returns (ok: bool)
      modifies this`refunds
      ensures ok <==> refundId !in old(refunds)
      ensures ok ==> refunds == old(refunds)[refundId :=
        Refund(orderId, userId, requestedAmount, reason, proofLinks, "pending", None, None, now, None, None)]
      ensures !ok ==> refunds == old(refunds)
    {
      ok := refundId !in refunds;
      if ok {
        refunds := refunds[refundId := Refund(orderId, userId, requestedAmount, reason, proofLinks, "pending", None, None, now, None, None)];
      }
    }

    /** updateRefundStatus */
    method UpdateRefundStatus(refundId: string, status: string, adminResponse: string,
                              approvedAmount: int, processedBy: string, now: int)
      modifies this`refunds
      ensures refundId in old(refunds) ==>
        refunds == old(refunds)[refundId := old(refunds)[refundId].(status := status,
          adminResponse := Some(adminResponse), approvedAmount := Some(approvedAmount),
          processedAt := Some(now), processedBy := Some(processedBy))]
      ensures refundId !in old(refunds) ==> refunds == old(refunds)
    {
      if refundId in refunds {
        refunds := refunds[refundId := refunds[refundId].(status := status,
          adminResponse := Some(adminResponse), approvedAmount := Some(approvedAmount),
          processedAt := Some(now), processedBy := Some(processedBy))];
      }
    }

    /** setCooldown: INSERT OR REPLACE on (user_id, product_name). */
    method SetCooldown(userId: string, productName: string, now: int)
      modifies this`cooldowns
      ensures cooldowns == old(cooldowns)[(userId, productName) := now]
    {
      cooldowns := cooldowns[(userId, productName) := now];
    }

    /** clearUserCooldowns: only that user's rows go. */
    method ClearUserCooldowns(userId: string)
      modifies this`cooldowns
      ensures cooldowns == WithoutUser(old(cooldowns), userId)
    {
      cooldowns := WithoutUser(cooldowns, userId);
    }

    /** clearAllCooldowns */
    method ClearAllCooldowns()
      modifies this`cooldowns
      ensures cooldowns == map[]
    {
      cooldowns := map[];
    }

    /** One row of syncAllProductStock: store the disk count when it differs. */
    method SyncOne(name: string, lineFiles: map<string, string>, dirs: map<string, seq<Entry>>)
      returns (step: seq<SyncResult>)
      requires name in products
      modifies this`products
      ensures products == old(products)[name := Synced(old(products)[name], lineFiles, dirs, name)]
      ensures step == SyncStep(name, old(products)[name], lineFiles, dirs)
    {
      var p := products[name];
      var actual := ActualCount(lineFiles, dirs, name, p.cookieMode);
      step := [];
      if actual != p.stock {
        UpdateStock(name, actual);
        step := [SyncResult(name, p.stock, actual, actual - p.stock)];
      }
    }

    /** syncAllProductStock: store the disk count of every product whose stored
        stock differs, and report exactly those, in listing order. `names` is the
        order getAllProducts returns the rows in. */
    method SyncAllProductStock(disk: Disk, names: seq<string>) returns (results: seq<SyncResult>)
      requires Distinct(names) && (forall n :: n in names <==> n in products)
      modifies this`products
      ensures results == SyncReport(names, old(products), disk.lineFiles, disk.dirs)
      ensures products.Keys == old(products).Keys
      ensures forall n :: n in products ==> products[n] == Synced(old(products)[n], disk.lineFiles, disk.dirs, n)
    {
      ghost var before := products;
      var lf, dr := disk.lineFiles, disk.dirs;
      results := [];
      var i := 0;
      SyncStart(products, names, lf, dr);
      while i < |names|
        invariant SyncLoop(products, before, names, i, results, lf, dr)
      {
        SyncLoopStep(products, before, names, i, results, lf, dr);
        var step := SyncOne(names[i], lf, dr);
        results := results + step;
        i := i + 1;
      }
      SyncLoopEnd(products, before, names, i, results, lf, dr);
    }
  }
}
