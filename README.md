# A Discord store bot: the order pipeline and its small state machines

This project models the core of a Discord store bot that sells game accounts
for coins, and proves properties of the model. It covers these parts:

- **The purchase pipeline** (`Purchase`, `Batch`).
  - `/purchase` checks the buyer and charges them, then appends the order to a
    per-product queue.
  - A debounce timer drains the queue in one pass. The pass loads the product's
    stock units, screens them with an external precheck service and with the
    delivered-username ledger, and hands them out greedily in queue order.
  - In line mode, the pass writes the undelivered units back to the stock file
    and recounts the stock from disk.
  - The queue is a class (`Purchase.Coordinator`) with explicit enqueue,
    timer-fire and end-of-pass steps. Armed timers are a multiset of product
    names.
  - The pass is a method on the database, the disk and the ledger
    (`Batch.ProcessBatch`). It is proved equal to a function (`Batch.Pass`)
    about which the lemmas speak.
- **The stock store** (`Stock`).
  - A line-mode product keeps one unit per non-blank line of `<name>.txt`.
  - A file-mode ("cookie") product keeps one unit per regular file of its
    directory.
  - The disk is a class of two maps.
  - `getActualStockCount` is `Stock.ActualCount`.
- **The delivered-account ledger** (`Antipublic`).
  - This includes the username parser over the three credential layouts.
  - Lookup ignores case. Upsert is keyed on the exact username.
  - Filtering compares only against the ledger, and recording skips units
    without a username.
- **The SQLite tables** (`Database`).
  - Products, keys, balances, blacklist, deposits, orders, refunds and cooldowns
    are maps in one class, `Database.Db`.
  - Each table's insert, upsert, clamp and timestamp rules are modelled, along
    with `syncAllProductStock`.
- **The administrator commands.**
  - `/restock` (`Restock`): appending lines, copying files, the depth-first
    search of the extracted zip, and the report.
  - `/add_product` and `/remove_product` (`Products`).
  - `/gen_key` (`Keys`): issuing keys and splitting the reply into messages of
    at most 2000 characters.
- **Smaller state machines.**
  - Key redemption (`Keys`).
  - Refund requests, proof submissions and admin decisions (`Refunds`), with the
    custom-ID round trip between the refund command and the bot's modal handler.
  - Deposit polling (`Deposits`).
  - Vouch rewards and their 24-hour cooldown (`Vouch`).
  - The `/product_info` texts (`ProductInfo`).
- **Helper modules.**
  - `Text`: JavaScript string semantics such as `split`, `trim`, `join` and
    decimal rendering, and the ASCII part of case mapping.
  - `Ids`: the random-ID generators.

Values from outside the bot's logic are parameters:

- the precheck service is a health flag and a verdict list;
- `Math.random` is a sequence of character indices;
- `Date.now()` is an integer count of milliseconds;
- failing Discord DMs and failing database writes are flags;
- the extracted zip is a tree of entries.

Prices and balances are integer coins.

## Model

| member | source | states |
|---|---|---|
| Text.Split | utils/antipublic.js:52 | `split` with a non-empty separator always yields at least one piece |
| Text.NonBlank | commands/restock.js:91 | `filter(line => line.trim() !== '')` keeps only non-blank lines and never adds one |
| Text.TrimAll | commands/purchase.js:109-113 | each loaded line is trimmed, position by position |
| Text.JoinLines | commands/purchase.js:222-223 | the write-back of no units is the empty file |
| Text.LinesOfJoinLines | commands/purchase.js:220-223 | reading back a line-mode write-back gives exactly the written units, in order, and a non-empty write-back ends in '\n' |
| Text.ReloadJoinLines | commands/purchase.js:105-114 | well-formed units survive a write-back followed by a reload (split, filter, trim) unchanged |
| Text.Upper | commands/redeem.js:16 | the ASCII part of `toUpperCase`: each character is mapped on its own, 'a'-'z' to 'A'-'Z', and the length is kept |
| Text.Lower | utils/vouch.js:86 | the ASCII part of `toLowerCase`: each character is mapped on its own, 'A'-'Z' to 'a'-'z', and the length is kept |
| Text.NatToString | commands/refund.js:67 | the amount printed into a custom ID is a non-empty string of digits that parses back to the amount |
| Ids.RandomId | commands/purchase.js:10-20 | the nested loops give the prefix followed by groups of five characters from A-Z0-9, each character taken from its pick and the groups separated by '-' |
| Ids.ShapedIsUpper | commands/refund.js:37 | a generated ID is unchanged by upper-casing, so an upper-cased pasted ID finds its row |
| Ids.ShapedNoUnderscore | bot.js:96 | a generated ID holds no '_', so splitting a custom ID on '_' cannot cut it |
| Purchase.GenerateOrderId | commands/purchase.js:10-20 | `ORDER-` and three groups of five, 23 characters, no '_', already upper case |
| Purchase.Coordinator.constructor | commands/purchase.js:21 | the order queue starts with no product queues and no armed timers |
| Purchase.Coordinator.Enqueue | commands/purchase.js:23-35 | creates `{orders: [], processing: false}` on first use, appends the order at the end, and arms a timer exactly when no pass is running; no idle queue is left holding orders without a timer |
| Purchase.Coordinator.TimerFire | commands/purchase.js:36-48 | the fired timer is consumed; a missing, empty or busy queue yields no batch and changes nothing; otherwise the whole pending list is returned in order and the queue becomes empty and busy |
| Purchase.Coordinator.FinishPass | commands/purchase.js:69-77 | whether the pass completed or threw, the queue is idle again and a new timer is armed iff orders arrived during the pass |
| Purchase.Quantities | commands/purchase.js:50 | one quantity per order of the batch, in order |
| Purchase.Allocation | commands/purchase.js:199-213 | one slice of units per order of the batch |
| Purchase.AllocationConsumes | commands/purchase.js:199-216 | the slices, concatenated, are exactly the first min(total ordered, units available) units: consecutive, disjoint, in order, none skipped |
| Purchase.AllocationShare | commands/purchase.js:202-208 | order k receives min(its quantity, what the earlier orders left) units |
| Purchase.FirstComeFirstServed | commands/purchase.js:199-213 | an order receives anything only when every earlier order of the batch was served in full |
| Purchase.TakeUnits | commands/purchase.js:203-208 | the inner loop takes the next min(needed, left) units from `accountIndex` and advances it by that much |
| Purchase.Allocate | commands/purchase.js:199-216 | the allocation loop produces `Allocation` of the valid units; `accountIndex` ends at min(total ordered, units) and the units before it are exactly the slices handed out |
| Purchase.CooldownWait | commands/purchase.js:413-428 | there is a wait iff now is before the end of the cooldown; the minutes and seconds shown are the remaining time rounded up to whole seconds |
| Purchase.Refusal | commands/purchase.js:393-437 | the checks in source order: blacklist, missing product, stored stock below the quantity, an active cooldown unless the buyer is exempt or the product has none, balance below price×quantity; no refusal iff all pass |
| Purchase.Charge | commands/purchase.js:438-440 | a fresh order ID of the right shape; the balance is debited by price×quantity (clamped at 0); the order row is inserted as 'processing' iff its ID is new |
| Purchase.NewOrder | commands/purchase.js:431-440 | the row addOrder writes is 'processing', not completed, for the buyer, with total cost price×quantity |
| Purchase.Execute | commands/purchase.js:393-455 | as written: a refused purchase changes nothing; a charged one inserts the order row; the order is queued only when the processing DM at line 447 goes through, and then the product's queue gains it at the end (created idle on first use) and a timer is armed iff no pass is running; a purchase that is not queued leaves the coordinator alone |
| Purchase.ExecuteGuarded | commands/purchase.js:393-455 | with the processing DM caught: every purchase that passes the checks and inserts its row is queued, with the queue and timer effect of `Enqueue`; a purchase that is not queued leaves the coordinator alone |
| Purchase.StrandedOrderWitness | commands/purchase.js:447 | a buyer with exactly enough coins whose DM fails ends with 0 coins, an order row stuck at 'processing', and nothing queued |
| Purchase.QueuedOrderWitness | commands/purchase.js:447-450 | the same buyer under `ExecuteGuarded` has the paid order queued |
| Batch.WithStatus | utils/database.js:298-307 | updateOrderStatus adds and removes no order row |
| Batch.FailAll | commands/purchase.js:53-56 | marking a batch failed adds and removes no order row |
| Batch.FailAllMarks | commands/purchase.js:53-56 | after the catch every order of the batch is 'failed' without a completion time, and every other order row is unchanged |
| Batch.VerdictPartition | commands/purchase.js:154-162 | only the first min(units, verdicts) units are classified, each as valid or invalid, and none past that point |
| Batch.SplitByVerdict | commands/purchase.js:154-162 | the pairing loop yields the valid and invalid units in input order |
| Batch.Screen | commands/purchase.js:117-197 | the pass stops as unavailable iff the precheck level is above 0, there are units, and the service is unhealthy; otherwise the kept units are the valid units that the ledger filter keeps |
| Batch.RemoveFilesGone | commands/purchase.js:166-170 | after unlinking a set of files, an entry is listed iff it was listed and is not one of the unlinked files |
| Batch.Summary | commands/purchase.js:310-318 | the delivery DM reports the number delivered, and it is a partial delivery, titled '⚠️ Partial Delivery' and showing the quantity requested, iff fewer units than requested were delivered |
| Batch.PartialWhereStockRunsOut | commands/purchase.js:310-318 | an order that receives units is told its delivery is partial iff the kept units run out inside its share |
| Batch.OnlyLastServedIsPartial | commands/purchase.js:310-318 | of the orders of a batch that receive units, only the last can be partial |
| Batch.PassPartial | commands/purchase.js:310-318 | when every DM goes through, an order that receives units ends 'completed', and its DM is a partial delivery iff the kept units run out inside its share |
| Batch.Deliver | commands/purchase.js:235-360 | deliverOrder marks the order 'failed' for no units and 'completed' otherwise; it never throws for no units; it leaves the catalogue and the line files alone, and the directories too in line mode |
| Batch.DeliverRest | commands/purchase.js:217-219 | the delivery loop adds and removes no order row and touches neither the catalogue nor the line files |
| Batch.DeliverRestCompletes | commands/purchase.js:217-219 | when every DM goes through, the loop runs to the end |
| Batch.DeliverRestThrows | commands/purchase.js:325-328 | a failing DM for an order that received units throws out of the loop |
| Batch.DeliverRestKeepsOthers | commands/purchase.js:217-219 | without a throw, order rows outside the rest of the batch are untouched |
| Batch.DeliverRestStatuses | commands/purchase.js:237-255 | without a throw, each later order ends 'completed' if it received units and 'failed' if it received none |
| Batch.PassMissingProduct | commands/purchase.js:82-85 | a product missing from the table fails every order of the batch and changes nothing else |
| Batch.PassPrecheckDown | commands/purchase.js:119-144 | an unhealthy precheck with a level set and stock present fails every order, and leaves the catalogue, the stock files and the ledger untouched |
| Batch.KeptAreLineUnits | commands/purchase.js:105-197 | in line mode every unit kept by the screening is a well-formed line unit |
| Batch.ScreenedFromUnits | commands/purchase.js:154-197 | the screening keeps only units it was given |
| Batch.AllottedWhenLeft | commands/purchase.js:202-208 | order j receives units iff it asks for some and the orders before it asked for fewer than the kept units |
| Batch.PassStatuses | commands/purchase.js:199-219 | when every DM goes through, each order of the batch ends 'completed' if the earlier orders left units for it and 'failed' otherwise |
| Batch.PassSettles | commands/purchase.js:79-234 | an available pass is the delivery loop over the allocation of the screened units, followed by the end-of-pass write-back |
| Batch.LineSettled | commands/purchase.js:220-228 | after a loop without a throw, the undelivered kept units replace what the screening wrote, and the stored stock becomes their number |
| Batch.SettleWritesBack | commands/purchase.js:220-228 | the line file holds the kept units after the first min(ordered, kept), the stored stock is their number, and the directories are unchanged |
| Batch.RestCount | commands/purchase.js:220-227 | the disk count after the write-back is the number of kept units minus those used |
| Batch.PassLineWriteBack | commands/purchase.js:214-228 | a line-mode pass in which every DM goes through leaves the stock file holding exactly the write-back (`JoinLines`) of the undelivered kept units, the stored stock equal to their number, and the directories unchanged |
| Batch.PassOnlyRestocks | commands/purchase.js:226-228 | a pass changes no catalogue row except the stock count of its own product |
| Batch.PassDmThrow | commands/purchase.js:49-68 | when a DM for an order with units fails, every order of the batch ends 'failed', including those already completed; the stored stock is not refreshed; in line mode the file keeps what the screening wrote, which still holds every kept unit, those just handed to the earlier orders of the batch included, so the next pass can hand them out again unless the ledger turns their usernames away |
| Batch.PassKeepsOrders | commands/purchase.js:49-77 | a pass adds and removes no order row |
| Batch.UnverdictedUnitsVanish | commands/purchase.js:154-162 | with a healthy precheck, units past the end of the verdict list are neither valid, invalid nor kept; they are never delivered and, in line mode, never written back |
| Batch.FailOrders | commands/purchase.js:55-56 | the loop marks the batch failed as `FailAll` says |
| Batch.UnlinkEach | commands/purchase.js:166-170 | the unlink loop removes exactly the named files of the product directory |
| Batch.DropRejects | commands/purchase.js:163-196 | rejects, when there are any, are unlinked in file mode, and in line mode the file is rewritten with the remaining units; with no rejects nothing changes |
| Batch.ScreenStock | commands/purchase.js:117-197 | the screening result is `Screen` of the loaded units against the ledger, and the stock is rewritten or unlinked as the precheck and ledger steps say |
| Batch.DeliverOrder | commands/purchase.js:235-360 | deliverOrder on the database, the disk and the ledger is `Deliver` of the old state |
| Batch.DeliverOrders | commands/purchase.js:217-219 | the loop over the allocation is `DeliverRest` from the first order, stopping at the first throw |
| Batch.ProcessBatch | commands/purchase.js:79-234 | one pass on the database, the disk and the ledger turns the old state into `Pass` of it |
| Batch.DeliverScreened | commands/purchase.js:199-228 | allocation, the delivery loop, then either the catch (all failed) or the write-back |
| Batch.WriteBack | commands/purchase.js:220-228 | the line-mode write-back of the unallocated units, then the stored stock recounted from disk |
| Stock.RegularFiles | utils/database.js:404-407 | the listing filtered to regular files keeps every regular file and nothing else |
| Stock.FileUnits | commands/purchase.js:88-104 | one unit per regular file, with the trimmed content and the file name |
| Stock.LineUnits | commands/purchase.js:105-114 | one line unit per text, in order |
| Stock.LoadUnits | commands/purchase.js:86-115 | the pass loads exactly as many units as getActualStockCount reports; file-mode units carry a file name, and line-mode units are well-formed lines |
| Stock.LineRoundTrip | commands/purchase.js:220-228 | after a line-mode write-back, loading gives the written units back and the count is their number |
| Stock.RemoveFile | commands/purchase.js:258-262 | after unlinking a name, an entry is listed iff it was listed and is not the file of that name |
| Stock.RemoveFileCount | utils/database.js:399-408 | unlinking an existing file of a directory with distinct names lowers the count by one; unlinking a missing one changes nothing |
| Stock.PutFileCount | commands/restock.js:81-83 | copying in a file under a new name adds one file and keeps every existing one; copying onto an existing name keeps the count |
| Stock.Disk.WriteLineFile | commands/add_product.js:66 | `writeFileSync` replaces that stock file's content and no other |
| Stock.Disk.DeleteLineFile | commands/remove_product.js:49-52 | the stock file is gone and its count is 0 |
| Stock.Disk.EnsureDir | commands/add_product.js:59-63 | a missing directory is created empty; an existing one keeps its files |
| Stock.Disk.RemoveDir | commands/remove_product.js:43-47 | the directory is gone and its count is 0 |
| Stock.Disk.Unlink | commands/purchase.js:258-262 | unlinks a file of an existing product directory; nothing else changes |
| Stock.Disk.CopyIn | commands/restock.js:81-83 | the copy lands in the product directory under its name |
| Antipublic.TokenUsername | utils/antipublic.js:38-51 | the token layout only yields a name for content holding " \| accesstoken:" |
| Antipublic.ColonUsername | utils/antipublic.js:52-67 | a name from the ':' layouts is non-empty, free of '@' and '.', and is the trimmed first or last part |
| Antipublic.ExtractUsername | utils/antipublic.js:35-74 | outside the token layout, any extracted name is plausible |
| Antipublic.NoTokenLayout | utils/antipublic.js:38-52 | content without '\|' goes straight to the ':' layouts |
| Antipublic.ColonLayout | utils/antipublic.js:54-60 | `email:password:name` yields the name when it is plausible |
| Antipublic.PairLayout | utils/antipublic.js:61-67 | `name:password` yields the name when it is plausible |
| Antipublic.EmailPairHasNone | utils/antipublic.js:52-69 | an e-mail and a password, such as `a@b.com:pass`, yield no username |
| Antipublic.TokenLayout | utils/antipublic.js:38-51 | a token line whose fifth " - " piece starts with `[name]` yields that name |
| Antipublic.RecordThenDelivered | utils/antipublic.js:117-149 | after an upsert of a name, a lookup succeeds iff it did before or the name equals the looked-up one ignoring case |
| Antipublic.Usernames | utils/antipublic.js:153-154 | one extraction result per account |
| Antipublic.Kept | utils/antipublic.js:150-173 | the kept accounts are never more than the input |
| Antipublic.Turned | utils/antipublic.js:150-173 | the turned-away accounts are never more than the input |
| Antipublic.FilterMembers | utils/antipublic.js:153-168 | an account is kept iff its username is missing or not yet delivered, and turned away with its username iff it is delivered |
| Antipublic.FilterPartitions | utils/antipublic.js:150-173 | every account lands in exactly one of the two lists |
| Antipublic.NoBatchDedup | utils/antipublic.js:150-173 | when no account of a batch was delivered before, all are kept, even two with the same username |
| Antipublic.Upserts | utils/antipublic.js:174-188 | recording never removes a ledger row |
| Antipublic.RecordedNames | utils/antipublic.js:174-188 | the reported usernames are never empty and never more than the accounts |
| Antipublic.RecordedAreStored | utils/antipublic.js:174-188 | every reported username is in the ledger afterwards under that exact key, and is found by a lookup |
| Antipublic.NothingToRecord | utils/antipublic.js:176-186 | accounts without a username, or whose writes fail, leave the ledger as it was |
| Antipublic.Ledger.constructor | utils/antipublic.js:18-34 | delivered_accounts starts empty |
| Antipublic.Ledger.Record | utils/antipublic.js:117-149 | it succeeds iff there is no name or the write does not fail; with a name and a working write, the row for that exact name is inserted or replaced; otherwise nothing changes |
| Antipublic.Ledger.FilterDelivered | utils/antipublic.js:150-173 | the loop's two lists are `Kept` and `Turned` of the accounts against the ledger |
| Antipublic.Ledger.RecordOne | utils/antipublic.js:177-185 | one account's upsert, and the username it reports when it has one and the write works |
| Antipublic.Ledger.RecordMultiple | utils/antipublic.js:174-188 | the loop's report is `RecordedNames` and the ledger becomes `Upserts` |
| Database.CompletedAt | utils/database.js:298-307 | completed_at is set, to the time of the update, iff the new status is 'completed' |
| Database.Debited | utils/database.js:208-217 | `MAX(0, coins - amount)`: never negative, exact when the balance covers the amount, 0 otherwise and for an unknown user |
| Database.WithoutUser | utils/database.js:370-377 | exactly the other users' cooldown rows remain, unchanged |
| Database.SyncStep | utils/database.js:428-439 | a product is reported iff its stored stock differs from the disk count, with old, new and difference = new - old |
| Database.SyncReport | utils/database.js:423-446 | the report has at most one entry per listed product |
| Database.SyncReportSound | utils/database.js:428-441 | every reported row is a listed product whose stored stock differed from the disk, with the right counts |
| Database.SyncReportComplete | utils/database.js:428-441 | a listed product missing from the report already had the disk count stored |
| Database.Db.constructor | utils/database.js:14-94 | every table starts empty |
| Database.Db.AddProduct | utils/database.js:95-104 | INSERT OR REPLACE by name, always with stock 0 |
| Database.Db.RemoveProduct | utils/database.js:105-112 | exactly that row is deleted |
| Database.Db.UpdateStock | utils/database.js:129-136 | only an existing row's stock changes |
| Database.Db.AddKey | utils/database.js:137-146 | a plain INSERT: it succeeds iff the code is new, and the key starts unredeemed |
| Database.Db.RedeemKey | utils/database.js:155-163 | an existing key is marked redeemed by the user at that time; an unknown code changes nothing |
| Database.Db.AddCoins | utils/database.js:172-181 | creates the row with the amount or adds the amount to it |
| Database.Db.SetCoins | utils/database.js:198-207 | creates the row or overwrites it with exactly the amount |
| Database.Db.RemoveCoins | utils/database.js:208-217 | clamps at zero; an unknown user gets a row holding 0 |
| Database.Db.AddToBlacklist | utils/database.js:218-227 | INSERT OR REPLACE of the user's row |
| Database.Db.RemoveFromBlacklist | utils/database.js:228-235 | exactly that user's row is deleted |
| Database.Db.AddDeposit | utils/database.js:252-261 | a plain INSERT with status 'pending', refused for an existing invoice |
| Database.Db.UpdateDepositStatus | utils/database.js:270-279 | sets the status, and completed_at for 'completed', clearing it otherwise |
| Database.Db.AddOrder | utils/database.js:280-289 | a plain INSERT; a new order starts as 'processing' without a completion time |
| Database.Db.UpdateOrderStatus | utils/database.js:298-307 | sets the status, and completed_at for 'completed', clearing it otherwise; an unknown order changes nothing |
| Database.Db.AddRefund | utils/database.js:308-317 | a plain INSERT with status 'pending', refused for an existing refund ID |
| Database.Db.UpdateRefundStatus | utils/database.js:326-334 | sets the status, the admin response, the approved amount, and who processed it and when |
| Database.Db.SetCooldown | utils/database.js:352-360 | INSERT OR REPLACE keyed by (user, product) |
| Database.Db.ClearUserCooldowns | utils/database.js:370-377 | only that user's cooldown rows go |
| Database.Db.ClearAllCooldowns | utils/database.js:378-385 | the cooldown table becomes empty |
| Database.Db.SyncOne | utils/database.js:429-439 | one row gets the disk count when it differs, and its report entry is `SyncStep` |
| Database.Db.SyncAllProductStock | utils/database.js:423-446 | the report is `SyncReport` in listing order; no product is added or removed, and every product ends with the disk count stored |
| Restock.FirstMatchSound | commands/restock.js:47-64 | the reference search returns a matching, listed entry, and nothing only when no entry matches |
| Restock.FindInIsFirstInPreorder | commands/restock.js:47-64 | findInDirectory returns the first match in depth-first preorder, testing each entry before descending into it, or nothing when no entry of the tree matches |
| Restock.AppendedLines | commands/restock.js:90-96 | the appended file holds every old unit, then exactly the new lines |
| Restock.AppendedToEmpty | commands/restock.js:94-96 | appending to a missing or empty file writes just the new lines |
| Restock.LinesHaveNoBreak | commands/restock.js:91 | no line read from the uploaded file contains '\n' |
| Restock.StampedInjective | commands/restock.js:82 | two copies made in the same millisecond get the same stamped name only when their file names are equal |
| Restock.CopyAllCount | commands/restock.js:80-85 | when the stamped names are new, each copy adds one file, and the copies land under their stamped names |
| Restock.RestockOneCount | commands/restock.js:67-103 | a product's disk count after its restock is the count before plus stockAdded (in file mode when the copies do not collide), and every other product's stock is untouched |
| Restock.AppendCount | commands/restock.js:93-97 | appending lines to a stock file, existing or not, adds that many units |
| Restock.RestockStepReport | commands/restock.js:101-110 | one iteration adds at most one report line, for that product, and only when it gained units |
| Restock.RestockReport | commands/restock.js:65-111 | the report keeps its earlier lines and adds at most one line per catalogue entry, each for a catalogue product that gained units |
| Restock.CopyFiles | commands/restock.js:80-85 | the copy loop copies every regular file under its stamped name and counts them |
| Restock.RestockProduct | commands/restock.js:67-100 | one product's restock on the disk is `RestockOne` |
| Restock.Restock | commands/restock.js:19-117 | a non-.zip attachment is refused with nothing changed; otherwise the catalogue (every product row once, with its cookie mode, as `getAllProducts` reads it) is restocked in turn, and the reply is "No products were restocked" iff the report is empty |
| Products.CookieModeOf | commands/add_product.js:50 | cookie mode is on iff the option is exactly 'true' |
| Products.LevelOf | commands/add_product.js:51 | a missing precheck level is 0 |
| Products.TypeOf | commands/add_product.js:52 | a missing or empty precheck type is 'email:pass'; any other given type is kept |
| Products.AddedStock | commands/add_product.js:45-67 | the row exists with stock 0 and the chosen mode; in line mode the disk count is 0; in file mode the directory keeps its files, so the disk may exceed the stored 0; other rows are untouched |
| Products.AddProductCommand | commands/add_product.js:45-67 | /add_product on the database and the disk is `Added` |
| Products.Removed | commands/remove_product.js:36-53 | the removal is refused iff the product is unknown |
| Products.RemovedLeavesNothing | commands/remove_product.js:36-53 | after a removal the row is gone and the disk count is 0; only the store that the row's mode names is touched, and other products are unchanged |
| Products.RemoveProductCommand | commands/remove_product.js:32-59 | the product is found iff it is in the table; an unknown name changes nothing |
| Keys.GenerateKeyCode | commands/gen_key.js:4-14 | `STRATS-` and three groups of five from A-Z0-9, 24 characters |
| Keys.KeyCodeIsUpper | commands/redeem.js:16 | a generated key is upper case, so a key typed in any case finds it |
| Keys.Issued | commands/gen_key.js:36-41 | one unredeemed row with the given coins per issued code, and no other |
| Keys.GenerateKeys | commands/gen_key.js:36-41 | exactly `quantity` keys are stored and listed in generation order, or fewer when an insert hits an existing code; every stored key is fresh and drawn from its picks |
| Keys.Groups | commands/gen_key.js:44-56 | the chunking always has at least one group |
| Keys.Render | commands/gen_key.js:49-56 | one chunk per group |
| Keys.GroupsKeepKeys | commands/gen_key.js:47-56 | reading the chunks in order gives every key exactly once, in order |
| Keys.ChunksFit | commands/gen_key.js:44-56 | with short keys and header, no chunk exceeds 2000 characters |
| Keys.ChunkKeys | commands/gen_key.js:45-56 | the chunking loop yields `Render` of `Groups` |
| Keys.KeyMessagesFit | commands/gen_key.js:42-63 | every reply fits in 2000 characters |
| Keys.SingleMessage | commands/gen_key.js:42-62 | the single message lists the keys exactly as a one-chunk reply would |
| Keys.Replies | commands/gen_key.js:42-63 | one message when it fits in 2000 characters, otherwise the chunks |
| Keys.Redeem | commands/redeem.js:14-33 | the code is upper-cased; an unknown key and a redeemed key are refused with no change |
| Keys.RedeemCredits | commands/redeem.js:28-29 | a redemption credits exactly the key's amount, to that user only, and marks that key, and only it, redeemed by the user |
| Keys.RedeemOnce | commands/redeem.js:24-29 | after a redemption the same key, typed in any case by anyone, is refused and changes nothing |
| Keys.RedeemCommand | commands/redeem.js:14-33 | /redeem on the database is `Redeem` |
| Refunds.GenerateRefundId | commands/refund.js:6-16 | `REF-` and two groups of five, 15 characters, no '_' (bot.js:276-286 is the same generator) |
| Refunds.WithinWindow | commands/refund.js:59-65 | the request is in time iff it is at most two hours after completion, exactly two hours included, with a NULL completion read as the epoch |
| Refunds.Request | commands/refund.js:35-67 | the proof modal opens iff the user is not blacklisted, the upper-cased order exists, belongs to them, is 'completed', the amount is within its total, and it is in time; its custom ID is `refund_proof_<ID>_<amount>` |
| Refunds.Client.constructor | commands/refund.js:79 | the remembered requests start empty |
| Refunds.RequestRefund | commands/refund.js:35-91 | /refund answers `Request`, or "Failed to process refund request!" when `showModal` throws on an accepted request; it remembers an accepted request under `<ID>_<amount>`, overwriting any entry with that key, only once the modal is shown |
| Refunds.CustomIdRoundTrip | bot.js:96-98 | for an order ID without '_', splitting the custom ID recovers the ID and the amount, and so the key of the remembered request |
| Refunds.Submit | bot.js:90-141 | the submission is refused iff no request is remembered under the key read from the custom ID, and a refused one changes nothing; a 'pending' row for the order is added iff the request is found and the refund ID is new; it succeeds, and forgets the request, iff besides that the admin post and the reply do not throw; when they throw the row stays and the request is kept |
| Refunds.SubmitProof | bot.js:96-139 | the refund ID has the `REF-` shape, and the handler's effect is `Submit`, including a throw after the insert |
| Refunds.RequestThenSubmit | bot.js:96-139 | an accepted request whose modal was shown, followed by its proof, stores a 'pending' refund for that order, user, amount and reason; the request is forgotten when the admin post and the reply go through and kept when one of them throws |
| Refunds.RetryAfterFailedPost | bot.js:105-139 | after a submission whose admin post throws, submitting the same modal again stores a second 'pending' refund for the same order |
| Refunds.Route | bot.js:80-266 | as written: the approve/decline modal branch is never reached, because the first modal branch takes every modal submission |
| Refunds.RouteCorrected | bot.js:80-266 | with the decision modal tested inside the modal branch: a modal submission reaches the decision handler iff its custom ID is an approve or decline modal's, and proof submissions are routed as before |
| Refunds.RouteDropsDecisions | bot.js:90-191 | the listener as written and the corrected one differ exactly on decision modals, which the written one drops |
| Refunds.Notes | bot.js:209 | the admin notes default to 'Refund approved' |
| Refunds.Decide | bot.js:195-237 | only a 'pending' refund is decided; an approval needs a whole amount above 0; nothing but an approval credits anyone; a refused decision changes nothing |
| Refunds.ApproveCredits | bot.js:207-215 | an approval credits exactly that amount to the requester and no one else, and leaves the refund 'approved' |
| Refunds.DecidedOnce | bot.js:203-206 | after an approval or a decline, every further decision is refused and changes nothing |
| Refunds.DecideRefund | bot.js:191-260 | the handler on the database is `Decide` |
| Deposits.StatusDisplay | commands/deposit.js:7-28 | a missing or empty status reads as waiting, an unknown one as '⏳ Awaiting Payment', and a known one as its emoji and text |
| Deposits.StatusDisplayDistinct | commands/deposit.js:7-28 | each known status has its own line, distinct from the unknown-status line |
| Deposits.Decision | commands/deposit.js:34-87 | complete iff the status is 'sending', 'finished' or 'confirmed'; fail iff it is 'expired' or 'failed'; anything else, or an error, polls again |
| Deposits.CheckPaymentStatus | commands/deposit.js:29-88 | a completion marks the deposit 'completed' and credits the coins; a failure marks it 'failed'; otherwise nothing changes and the check is rescheduled |
| Deposits.WatchCreditsOnce | commands/deposit.js:29-88 | however many polls it takes, the user is credited once, exactly when the chain ends in completion, and no one else is credited |
| Vouch.Load | utils/vouch.js:8-21 | a missing or unreadable file reads as no sticky message and no cooldowns |
| Vouch.Remaining | utils/vouch.js:70-78 | the remaining cooldown is never negative |
| Vouch.CooldownIffRemaining | utils/vouch.js:62-78 | a user is on cooldown iff some time remains, and at most a day remains once the last vouch is in the past |
| Vouch.HoursMinutes | utils/vouch.js:92-93 | the notice's hours and minutes are the remaining time rounded down to whole minutes |
| Vouch.IsVouchShape | utils/vouch.js:86-89 | a vouch is at least four characters and starts with '+'; a message starting with '+rep' or '+vouch' is a vouch |
| Vouch.WithCooldown | utils/vouch.js:79-83 | setCooldown records now for that user and keeps every other user's record |
| Vouch.VouchStore.SetCooldown | utils/vouch.js:79-83 | the file afterwards holds the loaded data with the user's time set, unless the write fails |
| Vouch.Vouched | utils/vouch.js:84-145 | rewarded iff the message is a vouch, the user is not on cooldown and crediting works; otherwise nothing changes |
| Vouch.ProcessVouch | utils/vouch.js:84-145 | processVouch on the balances and the data file is `Vouched` |
| Vouch.OncePerDay | utils/vouch.js:90-120 | a reward credits 10 coins; the same user earns nothing for 24 hours, and after that the next vouch is rewarded again unless crediting fails |
| Vouch.UnreadableFileForgets | utils/vouch.js:79-83 | with an unreadable file, a reward writes back a file that remembers only that user |
| ProductInfo.PrecheckDescription | commands/product_info.js:41-46 | 'Disabled' iff the level is neither 1 nor 2 |
| ProductInfo.AccountType | commands/product_info.js:47-54 | cookie mode reads 'Cookie Files' whatever the type; 'Standard Format' iff the type is neither 'token' nor 'email:pass' |
| ProductInfo.CooldownOf | commands/product_info.js:55-67 | no cooldown iff c ≤ 0; otherwise hours and minutes (seconds dropped), or minutes and seconds, or seconds, each of which recombines to c |
| ProductInfo.CooldownTextShape | commands/product_info.js:55-67 | the text is 'None' iff c ≤ 0; it ends in 'm' from one hour on and in 's' below that |
| ProductInfo.StockStatus | commands/product_info.js:68-76 | 'Out of Stock' iff stock = 0, 'Low Stock' iff stock is not 0 and below 10, 'In Stock' iff stock ≥ 10 |
| ProductInfo.ExtraFieldsFollowStock | commands/product_info.js:115-148 | the low-stock warning appears iff 0 < stock < 10, the out-of-stock notice iff stock = 0, never both, and the quality field iff a precheck level is set |
| ProductInfo.Info | commands/product_info.js:31-149 | 'Product not found' iff the user is not blacklisted and the product is missing; otherwise the fields describe that row |

## Left out

- Discord plumbing is not modelled. This covers embeds, replies, autocomplete,
  command registration, role grants and the sticky vouch message. A DM that
  matters to control flow is a flag saying whether it fails.
- Real time and asynchronous interleaving are not modelled.
  - A `setTimeout` is an armed timer in `Purchase.Coordinator`, and its firing is
    an explicit step.
  - A pass is one atomic step. Orders that arrive during a pass are `Enqueue`
    calls between `TimerFire` and `FinishPass`.
  - The race between `/restock` and a running pass is not modelled.
- utils/precheck-api is not part of this model. It is a health flag and a list
  of verdicts.
- The SQLite and file-system mechanics, zip building and extraction, and the
  HTTP download in `/restock` are not modelled.
  - The tables and stock files are maps.
  - The extracted archive is a tree given as input.
  - A read error that getActualStockCount would turn into 0 is not modelled.
- `Math.random` is not modelled: the generators take character indices. Dates
  are integer milliseconds.
- Floating point is not modelled: REAL prices are integer coins, and the deposit
  USD conversion and the metrics averages are not modelled.
- The logging calls (`logPurchase`, `logBalanceChange`, `logTransaction`) are
  not modelled, because they only write to a channel. The model takes them to
  never throw.
- Read-only queries and display commands are not modelled: getUserDeliveredAccounts,
  getUsernameDeliveryInfo, metrics, order, stock and the Excel export.
- updateProduct is not modelled, because none of the modelled commands calls it.
- The blacklist check is a boolean input. utils/blacklist.js is not part of this
  model, and its fail-open error path (utils/blacklist.js:10-13) is not
  modelled.
- Batch.Deliver: every delivered username is recorded (`Batch.NoFails`).
  A ledger write that fails inside a pass is swallowed by
  recordMultipleDeliveredAccounts, and that case is modelled only by
  `Antipublic.Ledger.RecordMultiple`.
- Batch.PassStatuses: it assumes distinct order IDs within a batch. That holds
  for IDs that addOrder accepted, since the INSERT refuses duplicates.
- Database.SyncStep: stored stock is always an integer, so the `|| 0` for a NULL
  stock is not modelled.
- Restock.RestockOneCount: in file mode it requires that no stamped copy name
  collides. When two files copied in the same millisecond share a name, the
  count falls short of stockAdded.
- Vouch.Vouched: a throw after the credit is not modelled. Such a throw comes
  from the logging calls or from the fallback reply after a failed DM.
  processVouch would then return false with the coins credited and the cooldown
  possibly set.
- Text.Upper, Text.Lower: case mapping is ASCII only. JavaScript's `toUpperCase` also maps
  other letters and can change the length ('ſ' to 'S', 'ı' to 'I', 'ß' to 'SS'). So
  `Keys.Redeem` and `Refunds.Request` refuse a typed code or order ID with such letters
  where the bot would map it onto a stored one. `Text.Lower` is exact where it is used:
  the username lookup, which follows SQLite's ASCII-only LOWER, and the '+rep'/'+vouch'
  prefix test, where only ASCII letters can match.
- Restock.Stamped: one `now` stamps every copy of a restock, while commands/restock.js:82
  reads `Date.now()` per file. The model covers only restocks whose copies all land in
  the same millisecond; copies spread over several milliseconds are not modelled.
- Batch.Summary: only the title, the count and the requested quantity of the delivery DM
  are modelled; the rest of its text and the attachment are left out.
- Refunds.RequestRefund: only a throw of `showModal` is modelled (`modalFails`). A database
  error in the lookups before it reaches the same catch, which stores nothing; it is not a
  separate case.
- Refunds.Submit: the throws after the insert (a submission outside a guild, the channel send,
  the reply) are one flag, `postFails`; which of them threw is not distinguished, and a throw
  of the catch's own reply, which changes no state, is not modelled.
- Purchase.Execute: the buyer's remaining-cooldown text is modelled by
  `Purchase.CooldownWait`, not as a reply string.

## Findings

| source | as written | input that shows it | evidently intended | confidence | as-written member | corrected member |
|---|---|---|---|---|---|---|
| commands/purchase.js:447 | execute debits the buyer (439) and inserts the order row (440). Only then does it send the "being processed" DM, with no guard. When the DM throws, the catch replies "Failed to create order!" and `queueOrder` (450) is never called. | A buyer with exactly price×quantity coins whose DMs are closed ends with 0 coins, an order row stuck at 'processing', and no queued order. Nothing ever delivers the order or refunds it. | Catch the processing DM, as every other DM in the file is caught, so a paid order is always queued | not executed | Purchase.StrandedOrderWitness | Purchase.QueuedOrderWitness |
| bot.js:90-191 | The first modal branch (90) handles every modal submission and returns at 142, whatever its custom ID. The approve/decline modal branch at 191 comes after it and is never reached. | An admin clicks "approve" on a refund and submits the amount modal: its custom ID `approve_refund_modal_<refund ID>` reaches the first modal branch, which does not handle it. The refund stays 'pending' and nobody is credited. | Test the decision modal inside the modal branch, or before it, so that admins can decide refunds | not executed | Refunds.Route | Refunds.RouteCorrected |
