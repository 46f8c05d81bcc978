/** One delivery pass of commands/purchase.js (processBatchOrders and
    processBatchedOrders, with deliverOrder): load the product's units, run
    the precheck, turn away usernames already delivered, hand units out to
    the drained orders, write the rest back and recompute the stored stock.
    The pass is specified by the function `Pass` on a snapshot of everything
    it touches, and `ProcessBatch` performs it on the database, the disk and
    the ledger. */
module Batch {
  import opened Text
  import opened Stock
  import opened Database
  import opened Antipublic
  import opened Purchase

  /** Everything a pass reads or writes. Balances are not part of it: nothing
      in a pass credits or debits a buyer. */
  datatype Store = Store(products: map<string, Product>, orders: map<string, Order>,
                         cooldowns: map<(string, string), int>, lineFiles: map<string, string>,
                         dirs: map<string, seq<Entry>>, rows: map<string, Delivery>)

  /** What a pass cannot see: whether the precheck service answers its health
      check and the verdicts it returns, whether the DM of the k-th order fails
      (`users.fetch` and `user.send` are not guarded), whether the bot is in a
      guild, the users holding the no-cooldown role, and the clock. */
  datatype Env = Env(healthy: bool, verdicts: seq<bool>, dmFails: seq<bool>, guild: bool,
                     exempt: set<string>, now: int)

  function Snapshot(db: Db, disk: Disk, ledger: Ledger): Store
    reads db, disk, ledger
  {
    Store(db.products, db.orders, db.cooldowns, disk.lineFiles, disk.dirs, ledger.rows)
  }

  /** `k < bs.length && bs[k]`: an unlisted position is false. */
  function At(bs: seq<bool>, k: int): bool {
    0 <= k < |bs| && bs[k]
  }

  /** updateOrderStatus on the orders table. */
  function WithStatus(orders: map<string, Order>, orderId: string, status: string, now: int): (r: map<string, Order>)
    ensures r.Keys == orders.Keys
  {
    if orderId in orders then orders[orderId := orders[orderId].(status := status, completedAt := CompletedAt(status, now))]
    else orders
  }

  /** Every order of the batch marked 'failed', one after the other. */
  function FailAll(orders: map<string, Order>, batch: seq<QueuedOrder>, now: int): (r: map<string, Order>)
    ensures r.Keys == orders.Keys
    decreases |batch|
  {
    if batch == [] then orders
    else WithStatus(FailAll(orders, batch[..|batch| - 1], now), batch[|batch| - 1].orderId, "failed", now)
  }

  /** After FailAll every order of the batch is 'failed' without a completion
      time, and every other order is as it was. */
  lemma {:induction false} FailAllMarks(orders: map<string, Order>, batch: seq<QueuedOrder>, now: int)
    ensures forall o :: o in batch && o.orderId in orders ==>
      FailAll(orders, batch, now)[o.orderId].status == "failed" && FailAll(orders, batch, now)[o.orderId].completedAt.None?
    ensures forall id :: id in orders && (forall o :: o in batch ==> o.orderId != id) ==>
      FailAll(orders, batch, now)[id] == orders[id]
    decreases |batch|
  {
    if batch != [] {
      var init := batch[..|batch| - 1];
      FailAllMarks(orders, init, now);
      forall o | o in batch && o.orderId in orders
        ensures FailAll(orders, batch, now)[o.orderId].status == "failed"
        ensures FailAll(orders, batch, now)[o.orderId].completedAt.None?
      {
        if o.orderId != batch[|batch| - 1].orderId {
          assert o in init by {
            var k :| 0 <= k < |batch| && batch[k] == o;
            assert init[k] == o;
          }
        }
      }
      forall id | id in orders && (forall o :: o in batch ==> o.orderId != id)
        ensures FailAll(orders, batch, now)[id] == orders[id]
      {
        assert batch[|batch| - 1] in batch;
        forall o | o in init ensures o.orderId != id {
          var k :| 0 <= k < |init| && init[k] == o;
          assert batch[k] == o;
        }
      }
    }
  }

  /** The precheck verdicts paired with the units, up to the shorter list
      (commands/purchase.js:154): the units that passed ... */
  function Passed(units: seq<Unit>, verdicts: seq<bool>): (r: seq<Unit>)
    decreases |units|
  {
    if units == [] || verdicts == [] then []
    else (if verdicts[0] then [units[0]] else []) + Passed(units[1..], verdicts[1..])
  }

  /** ... and the units that failed. */
  function Failed(units: seq<Unit>, verdicts: seq<bool>): (r: seq<Unit>)
    decreases |units|
  {
    if units == [] || verdicts == [] then []
    else (if verdicts[0] then [] else [units[0]]) + Failed(units[1..], verdicts[1..])
  }

  lemma VerdictUnfold(units: seq<Unit>, verdicts: seq<bool>, i: nat)
    requires i < |units| && i < |verdicts|
    ensures Passed(units[i..], verdicts[i..]) == (if verdicts[i] then [units[i]] else []) + Passed(units[i + 1..], verdicts[i + 1..])
    ensures Failed(units[i..], verdicts[i..]) == (if verdicts[i] then [] else [units[i]]) + Failed(units[i + 1..], verdicts[i + 1..])
  {
    assert units[i..][1..] == units[i + 1..] && verdicts[i..][1..] == verdicts[i + 1..];
  }

  /** Every unit with a verdict lands in exactly one of the two lists; a unit
      past the end of the verdicts lands in neither. */
  lemma {:induction false} VerdictPartition(units: seq<Unit>, verdicts: seq<bool>)
    ensures |Passed(units, verdicts)| + |Failed(units, verdicts)| == Min(|units|, |verdicts|)
    ensures forall u :: u in Passed(units, verdicts) ==> u in units[..Min(|units|, |verdicts|)]
    ensures forall u :: u in Failed(units, verdicts) ==> u in units[..Min(|units|, |verdicts|)]
    decreases |units|
  {
    if units != [] && verdicts != [] {
      VerdictPartition(units[1..], verdicts[1..]);
      var m := Min(|units|, |verdicts|);
      assert units[..m] == [units[0]] + units[1..][..m - 1];
    }
  }

  /** The loop of commands/purchase.js:154-162. */
  method SplitByVerdict(units: seq<Unit>, verdicts: seq<bool>) returns (valid: seq<Unit>, invalid: seq<Unit>)
    ensures valid == Passed(units, verdicts) && invalid == Failed(units, verdicts)
  {
    valid, invalid := [], [];
    var i := 0;
    assert units[0..] == units && verdicts[0..] == verdicts;
    while i < |units| && i < |verdicts|
      invariant 0 <= i <= |units| && i <= |verdicts|
      invariant valid + Passed(units[i..], verdicts[i..]) == Passed(units, verdicts)
      invariant invalid + Failed(units[i..], verdicts[i..]) == Failed(units, verdicts)
    {
      VerdictUnfold(units, verdicts, i);
      ghost var pv, pi := valid, invalid;
      if verdicts[i] {
        valid := valid + [units[i]];
        assert valid + Passed(units[i + 1..], verdicts[i + 1..]) == pv + ([units[i]] + Passed(units[i + 1..], verdicts[i + 1..]));
        assert invalid + Failed(units[i + 1..], verdicts[i + 1..]) == pi + ([] + Failed(units[i + 1..], verdicts[i + 1..]));
      } else {
        invalid := invalid + [units[i]];
        assert valid + Passed(units[i + 1..], verdicts[i + 1..]) == pv + ([] + Passed(units[i + 1..], verdicts[i + 1..]));
        assert invalid + Failed(units[i + 1..], verdicts[i + 1..]) == pi + ([units[i]] + Failed(units[i + 1..], verdicts[i + 1..]));
      }
      i := i + 1;
    }
    assert Passed(units[i..], verdicts[i..]) == [] && Failed(units[i..], verdicts[i..]) == [];
  }

  /** The outcome of the precheck and the antipublic filter. */
  datatype Screening =
    | Unavailable
    | Screened(valid: seq<Unit>, invalid: seq<Unit>, kept: seq<Unit>, turned: seq<(Unit, string)>)

  /** commands/purchase.js:117-197: with a precheck level above 0 and units in
      stock, an unhealthy service stops the pass; otherwise the verdicts split
      the units, and without a precheck every unit is valid. The valid units
      then go through filterDeliveredAccounts. */
  function Screen(p: Product, units: seq<Unit>, env: Env, rows: map<string, Delivery>): (r: Screening)
    ensures r.Unavailable? <==> p.precheckLevel > 0 && |units| > 0 && !env.healthy
    ensures r.Screened? ==> r.kept == Kept(rows, r.valid, Usernames(r.valid))
  {
    if p.precheckLevel > 0 && |units| > 0 then
      if !env.healthy then Unavailable
      else
        var valid := Passed(units, env.verdicts);
        Screened(valid, Failed(units, env.verdicts), Kept(rows, valid, Usernames(valid)), Turned(rows, valid, Usernames(valid)))
    else Screened(units, [], Kept(rows, units, Usernames(units)), Turned(rows, units, Usernames(units)))
  }

  /** The file names of file-mode units. */
  function FilesOf(units: seq<Unit>): (r: seq<string>)
    ensures |r| <= |units|
  {
    if units == [] then []
    else (if units[0].file.Some? then [units[0].file.value] else []) + FilesOf(units[1..])
  }

  /** The units of the turned-away pairs. */
  function TurnedUnits(turned: seq<(Unit, string)>): (r: seq<Unit>)
    ensures |r| == |turned|
  {
    if turned == [] then [] else [turned[0].0] + TurnedUnits(turned[1..])
  }

  /** Unlinking the named files one after the other. */
  function RemoveFiles(entries: seq<Entry>, names: seq<string>): seq<Entry>
    decreases |names|
  {
    if names == [] then entries
    else RemoveFile(RemoveFiles(entries, names[..|names| - 1]), names[|names| - 1])
  }

  /** Unlinking the named files of a product directory, when it exists. */
  function UnlinkAll(dirs: map<string, seq<Entry>>, product: string, names: seq<string>): (r: map<string, seq<Entry>>)
    ensures r.Keys == dirs.Keys
  {
    if product in dirs then dirs[product := RemoveFiles(dirs[product], names)] else dirs
  }

  /** A removed file is gone from the listing, whatever else was removed. */
  lemma {:induction false} RemoveFilesGone(entries: seq<Entry>, names: seq<string>)
    ensures forall e :: e in RemoveFiles(entries, names) <==> e in entries && !(e.File? && e.name in names)
    decreases |names|
  {
    if names != [] {
      var init := names[..|names| - 1];
      RemoveFilesGone(entries, init);
      assert names == init + [names[|names| - 1]];
    }
  }

  /** The stock file after the precheck (commands/purchase.js:171-175) and the
      antipublic filter (191-195) have rewritten it. */
  function ScreenedLines(lineFiles: map<string, string>, product: string, s: Screening): map<string, string> {
    if s.Unavailable? then lineFiles
    else
      var afterPrecheck := if |s.invalid| > 0 then lineFiles[product := JoinLines(Contents(s.valid))] else lineFiles;
      if |s.turned| > 0 then afterPrecheck[product := JoinLines(Contents(s.kept))] else afterPrecheck
  }

  /** The product directory after the precheck (165-170) and the antipublic
      filter (185-190) have unlinked their rejects. */
  function ScreenedDirs(dirs: map<string, seq<Entry>>, product: string, s: Screening): map<string, seq<Entry>> {
    if s.Unavailable? then dirs
    else
      var afterPrecheck := if |s.invalid| > 0 then UnlinkAll(dirs, product, FilesOf(s.invalid)) else dirs;
      if |s.turned| > 0 then UnlinkAll(afterPrecheck, product, FilesOf(TurnedUnits(s.turned))) else afterPrecheck
  }

  /** No record of a delivered account fails during a pass. */
  function NoFails(n: nat): (r: seq<bool>)
    ensures |r| == n && forall k :: 0 <= k < n ==> !r[k]
  {
    seq(n, _ => false)
  }

  /** The store after one order, and whether its DM threw. */
  datatype Run = Run(store: Store, thrown: bool)

  /** deliverOrder (commands/purchase.js:235-360). No units: the order fails.
      Otherwise it is completed, its files are unlinked in file mode, its
      accounts are recorded in the ledger, the DM is sent (its failure throws
      out of the pass), and the product's cooldown starts for the buyer when
      the product has one, the bot is in a guild and the buyer lacks the
      no-cooldown role. */
  function Deliver(s: Store, p: Product, product: string, o: QueuedOrder, units: seq<Unit>,
                   dmFails: bool, env: Env): (r: Run)
    ensures units == [] ==> !r.thrown
    ensures r.store.products == s.products && r.store.lineFiles == s.lineFiles
    ensures r.store.orders == WithStatus(s.orders, o.orderId, if units == [] then "failed" else "completed", env.now)
    ensures !p.cookieMode ==> r.store.dirs == s.dirs
  {
    if units == [] then Run(s.(orders := WithStatus(s.orders, o.orderId, "failed", env.now)), false)
    else
      var handed := s.(orders := WithStatus(s.orders, o.orderId, "completed", env.now),
                       dirs := if p.cookieMode then UnlinkAll(s.dirs, product, FilesOf(units)) else s.dirs,
                       rows := Upserts(s.rows, units, Usernames(units), NoFails(|units|), o.userId, o.orderId, product, env.now));
      if dmFails then Run(handed, true)
      else if p.cooldown > 0 && env.guild && o.userId !in env.exempt then
        Run(handed.(cooldowns := handed.cooldowns[(o.userId, product) := env.now]), false)
      else Run(handed, false)
  }

  /** The head of the delivery DM (commands/purchase.js:310-318): its title,
      the number of accounts delivered, and the quantity requested, which the
      DM shows only for a partial delivery. */
  datatype Receipt = Receipt(title: string, amount: nat, requested: Option<nat>)

  /** The receipt deliverOrder sends to an order that received units. */
  function Summary(o: QueuedOrder, units: seq<Unit>): (r: Receipt)
    requires units != []
    ensures r.amount == |units|
    ensures r.requested.Some? <==> |units| < o.quantity
    ensures r.requested.Some? ==> r.requested.value == o.quantity
    ensures r.requested.Some? <==> r.title == "⚠️ Partial Delivery"
  {
    if |units| < o.quantity then Receipt("⚠️ Partial Delivery", |units|, Some(o.quantity))
    else Receipt("Order Summary", |units|, None)
  }

  /** The orders of the batch from the k-th on delivered in turn, stopping
      at the first throw. */
  function DeliverRest(s: Store, p: Product, product: string, batch: seq<QueuedOrder>,
                       allocs: seq<seq<Unit>>, env: Env, k: nat): (r: Run)
    requires |allocs| == |batch| && k <= |batch|
    ensures r.store.products == s.products && r.store.lineFiles == s.lineFiles
    ensures r.store.orders.Keys == s.orders.Keys
    ensures !p.cookieMode ==> r.store.dirs == s.dirs
    decreases |batch| - k
  {
    if k == |batch| then Run(s, false)
    else
      var r := Deliver(s, p, product, batch[k], allocs[k], At(env.dmFails, k), env);
      if r.thrown then r else DeliverRest(r.store, p, product, batch, allocs, env, k + 1)
  }

  /** No order's DM fails from position k on. */
  predicate DmsSent(env: Env, k: nat, n: nat) {
    forall j :: k <= j < n ==> !At(env.dmFails, j)
  }

  lemma {:induction false} DeliverRestCompletes(s: Store, p: Product, product: string, batch: seq<QueuedOrder>,
                                                allocs: seq<seq<Unit>>, env: Env, k: nat)
    requires |allocs| == |batch| && k <= |batch| && DmsSent(env, k, |batch|)
    ensures !DeliverRest(s, p, product, batch, allocs, env, k).thrown
    decreases |batch| - k
  {
    if k < |batch| {
      var r := Deliver(s, p, product, batch[k], allocs[k], At(env.dmFails, k), env);
      DeliverRestCompletes(r.store, p, product, batch, allocs, env, k + 1);
    }
  }

  /** A failing DM of an order that received units throws out of the loop. */
  lemma {:induction false} DeliverRestThrows(s: Store, p: Product, product: string, batch: seq<QueuedOrder>,
                                             allocs: seq<seq<Unit>>, env: Env, k: nat, j: nat)
    requires |allocs| == |batch| && k <= j < |batch| && At(env.dmFails, j) && allocs[j] != []
    ensures DeliverRest(s, p, product, batch, allocs, env, k).thrown
    decreases j - k
  {
    var r := Deliver(s, p, product, batch[k], allocs[k], At(env.dmFails, k), env);
    if k < j && !r.thrown {
      DeliverRestThrows(r.store, p, product, batch, allocs, env, k + 1, j);
    }
  }

  /** No order of batch[k..] has this id. */
  predicate OutsideRest(batch: seq<QueuedOrder>, k: nat, id: string) {
    forall j :: k <= j < |batch| ==> batch[j].orderId != id
  }

  predicate DistinctIds(batch: seq<QueuedOrder>) {
    forall i, j :: 0 <= i < j < |batch| ==> batch[i].orderId != batch[j].orderId
  }

  /** Without a throw, orders outside batch[k..] are untouched by the rest of
      the loop. */
  lemma {:induction false} DeliverRestKeepsOthers(s: Store, p: Product, product: string, batch: seq<QueuedOrder>,
                                                  allocs: seq<seq<Unit>>, env: Env, k: nat, id: string)
    requires |allocs| == |batch| && k <= |batch| && DmsSent(env, k, |batch|)
    requires id in s.orders && OutsideRest(batch, k, id)
    ensures DeliverRest(s, p, product, batch, allocs, env, k).store.orders[id] == s.orders[id]
    decreases |batch| - k
  {
    if k < |batch| {
      var r := Deliver(s, p, product, batch[k], allocs[k], At(env.dmFails, k), env);
      assert !At(env.dmFails, k);
      assert batch[k].orderId != id;
      DeliverRestKeepsOthers(r.store, p, product, batch, allocs, env, k + 1, id);
    }
  }

  /** Without a throw, each order from k on ends 'completed' if it received
      units and 'failed' if it received none. */
  lemma {:induction false} DeliverRestStatuses(s: Store, p: Product, product: string, batch: seq<QueuedOrder>,
                                               allocs: seq<seq<Unit>>, env: Env, k: nat, j: nat)
    requires |allocs| == |batch| && k <= j < |batch| && DmsSent(env, k, |batch|) && DistinctIds(batch)
    requires batch[j].orderId in s.orders
    ensures DeliverRest(s, p, product, batch, allocs, env, k).store.orders[batch[j].orderId].status
            == (if allocs[j] == [] then "failed" else "completed")
    decreases |batch| - k
  {
    var r := Deliver(s, p, product, batch[k], allocs[k], At(env.dmFails, k), env);
    assert !At(env.dmFails, k);
    assert DeliverRest(s, p, product, batch, allocs, env, k) == DeliverRest(r.store, p, product, batch, allocs, env, k + 1);
    if k < j {
      DeliverRestStatuses(r.store, p, product, batch, allocs, env, k + 1, j);
    } else {
      DeliverRestKeepsOthers(r.store, p, product, batch, allocs, env, k + 1, batch[k].orderId);
    }
  }

  /** The screening a pass performs for a product of the catalogue. */
  function ScreeningOf(s: Store, product: string, env: Env): Screening
    requires product in s.products
  {
    var p := s.products[product];
    Screen(p, LoadUnits(s.lineFiles, s.dirs, product, p.cookieMode), env, s.rows)
  }

  /** A pass: processBatchOrders from the drained batch on. A missing product
      throws and the catch fails every order; an unavailable precheck fails
      every order and returns; a DM failure throws out of the delivery loop,
      and the catch fails every order of the batch, those already completed
      included, before the line-mode write-back and the stock update. A pass
      that completes writes the unallocated valid units back in line mode and
      stores the unit count found on disk. */
  function Pass(s: Store, product: string, batch: seq<QueuedOrder>, env: Env): Store {
    if product !in s.products then s.(orders := FailAll(s.orders, batch, env.now))
    else
      var p := s.products[product];
      var sc := ScreeningOf(s, product, env);
      if sc.Unavailable? then s.(orders := FailAll(s.orders, batch, env.now))
      else
        var r := DeliverRest(AfterScreening(s, product, p, sc), p, product, batch, Allocation(sc.kept, Quantities(batch)), env, 0);
        Settle(r, p, product, batch, sc.kept, env)
  }

  /** The store once the screening has rewritten the stock file (line mode) or
      unlinked the rejected files (file mode). */
  function AfterScreening(s: Store, product: string, p: Product, sc: Screening): Store {
    if p.cookieMode then s.(dirs := ScreenedDirs(s.dirs, product, sc))
    else s.(lineFiles := ScreenedLines(s.lineFiles, product, sc))
  }

  /** The end of a pass after the delivery loop: the catch after a throw, or
      the write-back and the stock update. */
  function Settle(r: Run, p: Product, product: string, batch: seq<QueuedOrder>, kept: seq<Unit>, env: Env): Store {
    if r.thrown then r.store.(orders := FailAll(r.store.orders, batch, env.now))
    else
      var used := Min(Sum(Quantities(batch)), |kept|);
      var lineFiles := if p.cookieMode then r.store.lineFiles
                       else r.store.lineFiles[product := JoinLines(Contents(kept[used..]))];
      var count := ActualCount(lineFiles, r.store.dirs, product, p.cookieMode);
      r.store.(lineFiles := lineFiles, products := r.store.products[product := p.(stock := count)])
  }

  /** A product missing from the table (commands/purchase.js:82-85): every
      order of the batch fails and nothing else changes. */
  lemma PassMissingProduct(s: Store, product: string, batch: seq<QueuedOrder>, env: Env)
    requires product !in s.products
    ensures var t := Pass(s, product, batch, env);
      t == s.(orders := t.orders)
      && (forall o :: o in batch && o.orderId in s.orders ==> t.orders[o.orderId].status == "failed")
      && (forall id :: id in s.orders && (forall o :: o in batch ==> o.orderId != id) ==> t.orders[id] == s.orders[id])
  {
    FailAllMarks(s.orders, batch, env.now);
  }

  /** A precheck service that is down while the product has a precheck level
      and units in stock (commands/purchase.js:124-144): every order of the
      batch fails, and the stock, the files and the ledger are untouched. */
  lemma PassPrecheckDown(s: Store, product: string, batch: seq<QueuedOrder>, env: Env)
    requires product in s.products && s.products[product].precheckLevel > 0 && !env.healthy
    requires ActualCount(s.lineFiles, s.dirs, product, s.products[product].cookieMode) > 0
    ensures var t := Pass(s, product, batch, env);
      t == s.(orders := t.orders)
      && (forall o :: o in batch && o.orderId in s.orders ==> t.orders[o.orderId].status == "failed")
      && (forall id :: id in s.orders && (forall o :: o in batch ==> o.orderId != id) ==> t.orders[id] == s.orders[id])
  {
    assert ScreeningOf(s, product, env).Unavailable?;
    FailAllMarks(s.orders, batch, env.now);
  }

  /** In line mode every unit kept by the screening is a line unit. */
  lemma KeptAreLineUnits(s: Store, product: string, env: Env)
    requires product in s.products && !s.products[product].cookieMode && ScreeningOf(s, product, env).Screened?
    ensures LineModeUnits(ScreeningOf(s, product, env).kept)
  {
    var units := LoadUnits(s.lineFiles, s.dirs, product, false);
    ScreenedFromUnits(s.products[product], units, env, s.rows);
    LineUnitsAmong(units, ScreeningOf(s, product, env).kept);
  }

  /** The screening keeps only units it was given. */
  lemma ScreenedFromUnits(p: Product, units: seq<Unit>, env: Env, rows: map<string, Delivery>)
    requires Screen(p, units, env, rows).Screened?
    ensures forall u :: u in Screen(p, units, env, rows).kept ==> u in units
  {
    var sc := Screen(p, units, env, rows);
    VerdictPartition(units, env.verdicts);
    FilterMembers(rows, sc.valid, Usernames(sc.valid));
    forall u | u in sc.kept ensures u in units {
      assert u in sc.valid;
      if p.precheckLevel > 0 && |units| > 0 {
        var m := Min(|units|, |env.verdicts|);
        var i :| 0 <= i < m && units[..m][i] == u;
        assert units[i] == u;
      }
    }
  }

  /** Units drawn from line units are line units. */
  lemma LineUnitsAmong(units: seq<Unit>, drawn: seq<Unit>)
    requires LineModeUnits(units) && forall u :: u in drawn ==> u in units
    ensures LineModeUnits(drawn)
  {
    forall k | 0 <= k < |drawn|
      ensures drawn[k].file.None? && IsUnitText(drawn[k].content)
    {
      assert drawn[k] in drawn;
      var i :| 0 <= i < |units| && units[i] == drawn[k];
    }
  }

  /** A unit is allotted to order j exactly when the order asks for units and
      the orders before it have not used up the kept units. */
  lemma AllottedWhenLeft(kept: seq<Unit>, batch: seq<QueuedOrder>, j: nat)
    requires j < |batch|
    ensures Allocation(kept, Quantities(batch))[j] != [] <==> batch[j].quantity > 0 && Sum(Quantities(batch)[..j]) < |kept|
  {
    AllocationShare(kept, Quantities(batch), j);
  }

  /** When every DM goes through, an order of the batch ends 'completed' when
      the orders before it left units for it and 'failed' otherwise
      (commands/purchase.js:199-219, 237-255): first come, first served. */
  lemma PassStatuses(s: Store, product: string, batch: seq<QueuedOrder>, env: Env, j: nat)
    requires product in s.products && ScreeningOf(s, product, env).Screened?
    requires DmsSent(env, 0, |batch|) && DistinctIds(batch)
    requires j < |batch| && batch[j].orderId in s.orders
    ensures batch[j].orderId in Pass(s, product, batch, env).orders
    ensures Pass(s, product, batch, env).orders[batch[j].orderId].status
            == (if batch[j].quantity > 0 && Sum(Quantities(batch)[..j]) < |ScreeningOf(s, product, env).kept|
                then "completed" else "failed")
  {
    var p := s.products[product];
    var sc := ScreeningOf(s, product, env);
    var screened := AfterScreening(s, product, p, sc);
    var allocs := Allocation(sc.kept, Quantities(batch));
    var r := PassSettles(s, product, batch, env);
    DeliverRestCompletes(screened, p, product, batch, allocs, env, 0);
    DeliverRestStatuses(screened, p, product, batch, allocs, env, 0, j);
    AllottedWhenLeft(sc.kept, batch, j);
    SettleLeavesOrders(Pass(s, product, batch, env), r, p, product, batch, sc.kept, env);
  }

  /** An order that receives units is told its delivery is partial exactly
      when the kept units run out inside its share. */
  lemma PartialWhereStockRunsOut(kept: seq<Unit>, batch: seq<QueuedOrder>, j: nat)
    requires j < |batch| && Allocation(kept, Quantities(batch))[j] != []
    ensures Summary(batch[j], Allocation(kept, Quantities(batch))[j]).requested.Some?
            <==> |kept| < Sum(Quantities(batch)[..j]) + batch[j].quantity
  {
    AllocationShare(kept, Quantities(batch), j);
  }

  /** Of the orders that receive units, only the last can be partial. */
  lemma OnlyLastServedIsPartial(kept: seq<Unit>, batch: seq<QueuedOrder>, j: nat, k: nat)
    requires j < k < |batch|
    requires Allocation(kept, Quantities(batch))[j] != [] && Allocation(kept, Quantities(batch))[k] != []
    ensures Summary(batch[j], Allocation(kept, Quantities(batch))[j]).requested.None?
  {
    FirstComeFirstServed(kept, Quantities(batch), j, k);
  }

  /** When every DM goes through, an order of the pass that receives units
      ends 'completed', and its DM reports a partial delivery exactly when
      the kept units run out inside its share. */
  lemma PassPartial(s: Store, product: string, batch: seq<QueuedOrder>, env: Env, j: nat)
    requires product in s.products && ScreeningOf(s, product, env).Screened?
    requires DmsSent(env, 0, |batch|) && DistinctIds(batch)
    requires j < |batch| && batch[j].orderId in s.orders
    requires Allocation(ScreeningOf(s, product, env).kept, Quantities(batch))[j] != []
    ensures batch[j].orderId in Pass(s, product, batch, env).orders
    ensures Pass(s, product, batch, env).orders[batch[j].orderId].status == "completed"
    ensures Summary(batch[j], Allocation(ScreeningOf(s, product, env).kept, Quantities(batch))[j]).requested.Some?
            <==> |ScreeningOf(s, product, env).kept| < Sum(Quantities(batch)[..j]) + batch[j].quantity
  {
    var kept := ScreeningOf(s, product, env).kept;
    PassStatuses(s, product, batch, env, j);
    AllottedWhenLeft(kept, batch, j);
    PartialWhereStockRunsOut(kept, batch, j);
  }

  /** Without a throw, the end of a pass changes no order. */
  lemma SettleLeavesOrders(t: Store, r: Run, p: Product, product: string, batch: seq<QueuedOrder>, kept: seq<Unit>, env: Env)
    requires !r.thrown && t == Settle(r, p, product, batch, kept, env)
    ensures t.orders == r.store.orders
  {
  }

  /** A line-mode pass in which every DM goes through rewrites the stock file
      with exactly the kept units that were not delivered (220-225), and the
      stock count becomes their number (226-228). The units written back
      follow the delivered ones, which are the front of the kept units
      (Purchase.AllocationConsumes). */
  lemma PassLineWriteBack(s: Store, product: string, batch: seq<QueuedOrder>, env: Env)
    requires product in s.products && !s.products[product].cookieMode && ScreeningOf(s, product, env).Screened?
    requires DmsSent(env, 0, |batch|)
    ensures var kept := ScreeningOf(s, product, env).kept;
      var used := Min(Sum(Quantities(batch)), |kept|);
      var t := Pass(s, product, batch, env);
      t.lineFiles == s.lineFiles[product := JoinLines(Contents(kept[used..]))]
      && product in t.products && t.products[product].stock == |kept| - used
      && t.dirs == s.dirs
  {
    var r := LineRun(s, product, batch, env);
    LineSettled(Pass(s, product, batch, env), s, product, s.products[product], ScreeningOf(s, product, env), r, batch, env);
  }

  /** `after` is the catalogue `before` with at most the stock count of
      `product` changed. */
  predicate OnlyRestocked(before: map<string, Product>, after: map<string, Product>, product: string) {
    after.Keys == before.Keys
    && (forall q :: q in before && q != product ==> after[q] == before[q])
    && (product in before ==> after[product] == before[product].(stock := after[product].stock))
  }

  lemma RestockOne(products: map<string, Product>, product: string, stock: int)
    requires product in products
    ensures OnlyRestocked(products, products[product := products[product].(stock := stock)], product)
  {
  }

  /** A pass changes no row of the catalogue but the stock count of its own
      product (commands/purchase.js:226-228 is its only write to products). */
  lemma PassOnlyRestocks(s: Store, product: string, batch: seq<QueuedOrder>, env: Env)
    ensures OnlyRestocked(s.products, Pass(s, product, batch, env).products, product)
  {
    if product in s.products && ScreeningOf(s, product, env).Screened? {
      var r := PassSettles(s, product, batch, env);
      var t := Pass(s, product, batch, env);
      if !r.thrown {
        RestockOne(s.products, product, t.products[product].stock);
      }
    }
  }

  /** An available pass is the delivery loop on the screened store, then Settle. */
  lemma PassSettles(s: Store, product: string, batch: seq<QueuedOrder>, env: Env) returns (r: Run)
    requires product in s.products && ScreeningOf(s, product, env).Screened?
    ensures var p := s.products[product];
      var sc := ScreeningOf(s, product, env);
      r == DeliverRest(AfterScreening(s, product, p, sc), p, product, batch, Allocation(sc.kept, Quantities(batch)), env, 0)
      && Pass(s, product, batch, env) == Settle(r, p, product, batch, sc.kept, env)
  {
    var p := s.products[product];
    var sc := ScreeningOf(s, product, env);
    r := DeliverRest(AfterScreening(s, product, p, sc), p, product, batch, Allocation(sc.kept, Quantities(batch)), env, 0);
  }

  /** The state a line-mode delivery loop leaves when no DM fails: no throw,
      the catalogue and the directories as they were, the stock file as the
      screening wrote it, and line units only among the kept ones. */
  predicate LineLoopDone(s: Store, product: string, sc: Screening, r: Run) {
    sc.Screened? && LineModeUnits(sc.kept) && !r.thrown
    && r.store.products == s.products && r.store.dirs == s.dirs
    && r.store.lineFiles == ScreenedLines(s.lineFiles, product, sc)
  }

  /** A line-mode pass in which every DM goes through runs its delivery loop
      to the end. */
  lemma LineRun(s: Store, product: string, batch: seq<QueuedOrder>, env: Env) returns (r: Run)
    requires product in s.products && !s.products[product].cookieMode && ScreeningOf(s, product, env).Screened?
    requires DmsSent(env, 0, |batch|)
    ensures Pass(s, product, batch, env) == Settle(r, s.products[product], product, batch, ScreeningOf(s, product, env).kept, env)
    ensures LineLoopDone(s, product, ScreeningOf(s, product, env), r)
  {
    var p := s.products[product];
    var sc := ScreeningOf(s, product, env);
    r := PassSettles(s, product, batch, env);
    DeliverRestCompletes(AfterScreening(s, product, p, sc), p, product, batch, Allocation(sc.kept, Quantities(batch)), env, 0);
    KeptAreLineUnits(s, product, env);
  }

  /** The line-mode end of a pass whose delivery loop did not throw: the
      undelivered kept units replace whatever the screening wrote, and the
      stock count becomes their number. */
  lemma LineSettled(t: Store, s: Store, product: string, p: Product, sc: Screening, r: Run,
                     batch: seq<QueuedOrder>, env: Env)
    requires !p.cookieMode && LineLoopDone(s, product, sc, r)
    requires t == Settle(r, p, product, batch, sc.kept, env)
    ensures var used := Min(Sum(Quantities(batch)), |sc.kept|);
      t.lineFiles == s.lineFiles[product := JoinLines(Contents(sc.kept[used..]))]
      && product in t.products && t.products[product].stock == |sc.kept| - used
      && t.dirs == s.dirs
  {
    var used := Min(Sum(Quantities(batch)), |sc.kept|);
    SettleWritesBack(r, p, product, batch, sc.kept, env);
    OverwriteScreened(s.lineFiles, product, sc, JoinLines(Contents(sc.kept[used..])));
  }

  /** The line-mode end of a pass without a throw. */
  lemma SettleWritesBack(r: Run, p: Product, product: string, batch: seq<QueuedOrder>, kept: seq<Unit>, env: Env)
    requires !r.thrown && !p.cookieMode && LineModeUnits(kept)
    ensures var used := Min(Sum(Quantities(batch)), |kept|);
      var t := Settle(r, p, product, batch, kept, env);
      t.lineFiles == r.store.lineFiles[product := JoinLines(Contents(kept[used..]))]
      && product in t.products && t.products[product].stock == |kept| - used
      && t.dirs == r.store.dirs
  {
    var used := Min(Sum(Quantities(batch)), |kept|);
    RestCount(r.store.lineFiles, r.store.dirs, product, kept, used);
  }


  /** Writing back the units after the first `used` leaves that many fewer. */
  lemma RestCount(lineFiles: map<string, string>, dirs: map<string, seq<Entry>>, product: string, kept: seq<Unit>, used: nat)
    requires used <= |kept| && LineModeUnits(kept)
    ensures ActualCount(lineFiles[product := JoinLines(Contents(kept[used..]))], dirs, product, false) == |kept| - used
  {
    var rest := kept[used..];
    assert LineModeUnits(rest) by {
      forall k | 0 <= k < |rest|
        ensures rest[k].file.None? && IsUnitText(rest[k].content)
      {
        assert rest[k] == kept[used + k];
      }
    }
    LineRoundTrip(lineFiles, dirs, product, rest);
  }

  /** Overwriting the product's line file hides what the screening wrote. */
  lemma OverwriteScreened(lineFiles: map<string, string>, product: string, sc: Screening, text: string)
    ensures ScreenedLines(lineFiles, product, sc)[product := text] == lineFiles[product := text]
  {
  }

  /** A DM that throws for an order that received units ends the loop
      (commands/purchase.js:325-328 are not guarded), and the catch at 53-68
      marks every order of the batch 'failed', those already completed
      included; the stock count is not refreshed and, in line mode, the
      undelivered units are not written back. */
  lemma PassDmThrow(s: Store, product: string, batch: seq<QueuedOrder>, env: Env, j: nat)
    requires product in s.products && ScreeningOf(s, product, env).Screened?
    requires j < |batch| && At(env.dmFails, j)
    requires batch[j].quantity > 0 && Sum(Quantities(batch)[..j]) < |ScreeningOf(s, product, env).kept|
    ensures Pass(s, product, batch, env).orders.Keys == s.orders.Keys
    ensures var t := Pass(s, product, batch, env);
      (forall o :: o in batch && o.orderId in s.orders ==> t.orders[o.orderId].status == "failed")
      && t.products == s.products
      && (!s.products[product].cookieMode ==>
            t.lineFiles == ScreenedLines(s.lineFiles, product, ScreeningOf(s, product, env)))
  {
    var p := s.products[product];
    var sc := ScreeningOf(s, product, env);
    var screened := AfterScreening(s, product, p, sc);
    var allocs := Allocation(sc.kept, Quantities(batch));
    AllottedWhenLeft(sc.kept, batch, j);
    DeliverRestThrows(screened, p, product, batch, allocs, env, 0, j);
    var r := DeliverRest(screened, p, product, batch, allocs, env, 0);
    FailAllMarks(r.store.orders, batch, env.now);
    PassKeepsOrders(s, product, batch, env);
  }

  /** A pass adds and removes no order: it only changes statuses. */
  lemma PassKeepsOrders(s: Store, product: string, batch: seq<QueuedOrder>, env: Env)
    ensures Pass(s, product, batch, env).orders.Keys == s.orders.Keys
  {
    if product !in s.products || ScreeningOf(s, product, env).Unavailable? {
      assert Pass(s, product, batch, env) == s.(orders := FailAll(s.orders, batch, env.now));
    } else {
      var r := PassSettles(s, product, batch, env);
      SettleKeepsOrders(r, s.products[product], product, batch, ScreeningOf(s, product, env).kept, env);
    }
  }

  lemma SettleKeepsOrders(r: Run, p: Product, product: string, batch: seq<QueuedOrder>, kept: seq<Unit>, env: Env)
    ensures Settle(r, p, product, batch, kept, env).orders.Keys == r.store.orders.Keys
  {
  }

  /** With a healthy precheck, units past the end of the verdict list are
      neither valid nor invalid (commands/purchase.js:154 pairs up to the
      shorter list), so they are never delivered and, in line mode, never
      written back: they leave the stock. */
  lemma UnverdictedUnitsVanish(s: Store, product: string, env: Env, u: Unit)
    requires product in s.products && s.products[product].precheckLevel > 0 && env.healthy
    requires var units := LoadUnits(s.lineFiles, s.dirs, product, s.products[product].cookieMode);
      |env.verdicts| <= |units| && u in units[|env.verdicts|..] && u !in units[..|env.verdicts|]
    ensures u !in ScreeningOf(s, product, env).valid && u !in ScreeningOf(s, product, env).invalid
    ensures u !in ScreeningOf(s, product, env).kept
  {
    var units := LoadUnits(s.lineFiles, s.dirs, product, s.products[product].cookieMode);
    var sc := ScreeningOf(s, product, env);
    VerdictPartition(units, env.verdicts);
    FilterMembers(s.rows, sc.valid, Usernames(sc.valid));
  }

  method FailOrders(db: Db, batch: seq<QueuedOrder>, now: int)
    modifies db`orders
    ensures db.orders == FailAll(old(db.orders), batch, now)
  {
    var i := 0;
    while i < |batch|
      invariant 0 <= i <= |batch|
      invariant db.orders == FailAll(old(db.orders), batch[..i], now)
    {
      assert batch[..i + 1][..i] == batch[..i];
      db.UpdateOrderStatus(batch[i].orderId, "failed", now);
      i := i + 1;
    }
    assert batch[..i] == batch;
  }

  /** `for (const item of items) if (fs.existsSync(path)) fs.unlinkSync(path)` */
  method UnlinkEach(disk: Disk, product: string, names: seq<string>)
    modifies disk`dirs
    ensures disk.dirs == UnlinkAll(old(disk.dirs), product, names)
  {
    var i := 0;
    while i < |names|
      invariant 0 <= i <= |names|
      invariant disk.dirs == UnlinkAll(old(disk.dirs), product, names[..i])
    {
      assert names[..i + 1][..i] == names[..i];
      disk.Unlink(product, names[i]);
      i := i + 1;
    }
    assert names[..i] == names;
  }

  /** Removing rejected units from the stock, when there are any: their files
      are unlinked in file mode, and in line mode the file is rewritten with
      the units `left`. */
  method DropRejects(disk: Disk, product: string, cookieMode: bool, left: seq<Unit>, rejects: seq<Unit>)
    modifies disk`lineFiles, disk`dirs
    ensures disk.lineFiles == if !cookieMode && |rejects| > 0 then old(disk.lineFiles)[product := JoinLines(Contents(left))]
                              else old(disk.lineFiles)
    ensures disk.dirs == if cookieMode && |rejects| > 0 then UnlinkAll(old(disk.dirs), product, FilesOf(rejects))
                         else old(disk.dirs)
  {
    if |rejects| > 0 {
      if cookieMode {
        UnlinkEach(disk, product, FilesOf(rejects));
      } else {
        disk.WriteLineFile(product, JoinLines(Contents(left)));
      }
    }
  }

  /** Precheck and antipublic filter, with their rewrites of the stock. */
  method ScreenStock(disk: Disk, ledger: Ledger, product: string, p: Product, units: seq<Unit>, env: Env)
    returns (sc: Screening)
    modifies disk`lineFiles, disk`dirs
    ensures sc == Screen(p, units, env, ledger.rows)
    ensures disk.lineFiles == if p.cookieMode then old(disk.lineFiles) else ScreenedLines(old(disk.lineFiles), product, sc)
    ensures disk.dirs == if p.cookieMode then ScreenedDirs(old(disk.dirs), product, sc) else old(disk.dirs)
  {
    var valid, invalid := units, [];
    if p.precheckLevel > 0 && |units| > 0 {
      if !env.healthy {
        return Unavailable;
      }
      valid, invalid := SplitByVerdict(units, env.verdicts);
    }
    DropRejects(disk, product, p.cookieMode, valid, invalid);
    var kept, turned := ledger.FilterDelivered(valid);
    DropRejects(disk, product, p.cookieMode, kept, TurnedUnits(turned));
    sc := Screened(valid, invalid, kept, turned);
  }

  /** deliverOrder on the database, the disk and the ledger. */
  method DeliverOrder(db: Db, disk: Disk, ledger: Ledger, p: Product, product: string, o: QueuedOrder,
                      units: seq<Unit>, dmFails: bool, env: Env) returns (thrown: bool)
    modifies db`orders, db`cooldowns, disk`dirs, ledger`rows
    ensures Run(Snapshot(db, disk, ledger), thrown) == Deliver(old(Snapshot(db, disk, ledger)), p, product, o, units, dmFails, env)
  {
    if units == [] {
      db.UpdateOrderStatus(o.orderId, "failed", env.now);
      return false;
    }
    db.UpdateOrderStatus(o.orderId, "completed", env.now);
    if p.cookieMode {
      UnlinkEach(disk, product, FilesOf(units));
    }
    var recorded := ledger.RecordMultiple(units, o.userId, o.orderId, product, env.now, NoFails(|units|));
    if dmFails {
      return true;
    }
    if p.cooldown > 0 && env.guild && o.userId !in env.exempt {
      db.SetCooldown(o.userId, product, env.now);
    }
    thrown := false;
  }

  /** The delivery loop (commands/purchase.js:217-219), left by a throw. */
  method DeliverOrders(db: Db, disk: Disk, ledger: Ledger, p: Product, product: string,
                       batch: seq<QueuedOrder>, allocs: seq<seq<Unit>>, env: Env) returns (thrown: bool)
    requires |allocs| == |batch|
    modifies db`orders, db`cooldowns, disk`dirs, ledger`rows
    ensures Run(Snapshot(db, disk, ledger), thrown) == DeliverRest(old(Snapshot(db, disk, ledger)), p, product, batch, allocs, env, 0)
  {
    ghost var whole := DeliverRest(Snapshot(db, disk, ledger), p, product, batch, allocs, env, 0);
    thrown := false;
    var k := 0;
    while k < |batch| && !thrown
      invariant 0 <= k <= |batch|
      invariant !thrown ==> DeliverRest(Snapshot(db, disk, ledger), p, product, batch, allocs, env, k) == whole
      invariant thrown ==> Run(Snapshot(db, disk, ledger), true) == whole
    {
      thrown := DeliverOrder(db, disk, ledger, p, product, batch[k], allocs[k], At(env.dmFails, k), env);
      k := k + 1;
    }
  }

  /** processBatchOrders from the drained batch on, with processBatchedOrders
      and deliverOrder. */
  method ProcessBatch(db: Db, disk: Disk, ledger: Ledger, product: string, batch: seq<QueuedOrder>, env: Env)
    modifies db`products, db`orders, db`cooldowns, disk`lineFiles, disk`dirs, ledger`rows
    ensures Snapshot(db, disk, ledger) == Pass(old(Snapshot(db, disk, ledger)), product, batch, env)
  {
    if product !in db.products {
      FailOrders(db, batch, env.now);
      return;
    }
    var p := db.products[product];
    var units := LoadUnits(disk.lineFiles, disk.dirs, product, p.cookieMode);
    var sc := ScreenStock(disk, ledger, product, p, units, env);
    if sc.Unavailable? {
      FailOrders(db, batch, env.now);
      return;
    }
    DeliverScreened(db, disk, ledger, p, product, batch, sc.kept, env);
  }

  /** processBatchedOrders on the screened stock (commands/purchase.js:199-228),
      with the catch of processBatchOrders after a throw. */
  method DeliverScreened(db: Db, disk: Disk, ledger: Ledger, p: Product, product: string, batch: seq<QueuedOrder>,
                         kept: seq<Unit>, env: Env)
    requires product in db.products && p == db.products[product]
    modifies db`products, db`orders, db`cooldowns, disk`lineFiles, disk`dirs, ledger`rows
    ensures Snapshot(db, disk, ledger)
      == Settle(DeliverRest(old(Snapshot(db, disk, ledger)), p, product, batch, Allocation(kept, Quantities(batch)), env, 0),
                p, product, batch, kept, env)
  {
    var allocs, used := Allocate(batch, kept);
    var thrown := DeliverOrders(db, disk, ledger, p, product, batch, allocs, env);
    if thrown {
      FailOrders(db, batch, env.now);
      return;
    }
    WriteBack(db, disk, ledger, p, product, batch, kept, used, env);
  }

  /** The end of a pass whose delivery loop did not throw
      (commands/purchase.js:220-228): the line-mode write-back of the units
      not handed out, then the stock count found on disk. */
  method WriteBack(db: Db, disk: Disk, ledger: Ledger, p: Product, product: string, batch: seq<QueuedOrder>,
                   kept: seq<Unit>, used: nat, env: Env)
    requires product in db.products && p == db.products[product] && used == Min(Sum(Quantities(batch)), |kept|)
    modifies db`products, disk`lineFiles
    ensures Snapshot(db, disk, ledger) == Settle(Run(old(Snapshot(db, disk, ledger)), false), p, product, batch, kept, env)
  {
    if !p.cookieMode {
      disk.WriteLineFile(product, JoinLines(Contents(kept[used..])));
    }
    var actualStock := ActualCount(disk.lineFiles, disk.dirs, product, p.cookieMode);
    db.UpdateStock(product, actualStock);
  }
}
