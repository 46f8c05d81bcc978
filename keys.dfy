/** Coin keys: /gen_key (commands/gen_key.js) issues them and lists them in
    replies of at most 2000 characters; /redeem (commands/redeem.js) turns
    one into coins once. */
module Keys {
  import opened Text
  import opened Ids
  import opened Database

  /** Discord's limit on the length of one message. */
  const Limit: nat := 2000

  /** generateKeyCode: `STRATS-` and three groups of five. */
  method GenerateKeyCode(picks: seq<nat>) returns (code: string)
    requires |picks| == 15 && forall k :: 0 <= k < |picks| ==> picks[k] < |Alphabet|
    ensures Shaped(code, "STRATS-", 3) && Filled(code, "STRATS-", picks)
    ensures |code| == 24
  {
    code := RandomId("STRATS-", 3, picks);
  }

  /** A generated key is upper case, so /redeem, which upper-cases what it is
      given, finds it whether it is typed in upper or lower case. */
  lemma KeyCodeIsUpper(code: string)
    requires Shaped(code, "STRATS-", 3)
    ensures Upper(code) == code
  {
    assert "STRATS-"[..] == ['S', 'T', 'R', 'A', 'T', 'S', '-'];
    ShapedIsUpper(code, "STRATS-", 3);
  }

  /** The rows addKey inserts for `codes`. */
  function Issued(codes: seq<string>, coins: int, now: int): (r: map<string, Key>)
    ensures r.Keys == set c | c in codes
    ensures forall c :: c in r ==> r[c] == Key(coins, false, None, now, None)
  {
    map c | c in codes :: Key(coins, false, None, now, None)
  }

  /** Key `j` was drawn from `picks[j]`. */
  predicate DrawnFrom(keys: seq<string>, picks: seq<seq<nat>>) {
    |keys| <= |picks|
    && forall j :: 0 <= j < |keys| ==> Shaped(keys[j], "STRATS-", 3) && Filled(keys[j], "STRATS-", picks[j])
  }

  /** The keys are distinct and none was already a row. */
  predicate Fresh(keys: seq<string>, before: map<string, Key>) {
    (forall j, l :: 0 <= j < l < |keys| ==> keys[j] != keys[l])
    && forall j :: 0 <= j < |keys| ==> keys[j] !in before
  }

  /** A fresh code drawn from the next picks extends the keys issued so far. */
  lemma IssueStep(keys: seq<string>, picks: seq<seq<nat>>, before: map<string, Key>, code: string, coins: int, now: int)
    requires DrawnFrom(keys, picks) && Fresh(keys, before) && |keys| < |picks|
    requires Shaped(code, "STRATS-", 3) && Filled(code, "STRATS-", picks[|keys|])
    requires code !in before + Issued(keys, coins, now)
    ensures DrawnFrom(keys + [code], picks) && Fresh(keys + [code], before)
    ensures (before + Issued(keys, coins, now))[code := Key(coins, false, None, now, None)]
            == before + Issued(keys + [code], coins, now)
  {
    DrawnAppend(keys, picks, code);
    FreshAppend(keys, before, code, coins, now);
    UpdateUnion(before, Issued(keys, coins, now), code, Key(coins, false, None, now, None));
  }

  lemma UpdateUnion<K, V>(a: map<K, V>, b: map<K, V>, k: K, v: V)
    ensures (a + b)[k := v] == a + b[k := v]
  {
  }

  lemma DrawnAppend(keys: seq<string>, picks: seq<seq<nat>>, code: string)
    requires DrawnFrom(keys, picks) && |keys| < |picks|
    requires Shaped(code, "STRATS-", 3) && Filled(code, "STRATS-", picks[|keys|])
    ensures DrawnFrom(keys + [code], picks)
  {
  }

  lemma FreshAppend(keys: seq<string>, before: map<string, Key>, code: string, coins: int, now: int)
    requires Fresh(keys, before) && code !in before + Issued(keys, coins, now)
    ensures Fresh(keys + [code], before)
    ensures Issued(keys + [code], coins, now) == Issued(keys, coins, now)[code := Key(coins, false, None, now, None)]
  {
    assert code !in keys;
  }

  /** The loop of /gen_key (commands/gen_key.js:36-41): key `i` is drawn from
      `picks[i]` and inserted with `coins`. An insert that hits an existing
      code throws, which ends the loop with the keys before it stored
      (`ok` false). */
  method GenerateKeys(db: Db, quantity: nat, coins: int, picks: seq<seq<nat>>, now: int)
    returns (keys: seq<string>, ok: bool)
    requires |picks| == quantity
    requires forall i :: 0 <= i < quantity ==>
      |picks[i]| == 15 && forall k :: 0 <= k < 15 ==> picks[i][k] < |Alphabet|
    modifies db`keys
    ensures ok ==> |keys| == quantity
    ensures !ok ==> |keys| < quantity
    ensures DrawnFrom(keys, picks) && Fresh(keys, old(db.keys))
    ensures db.keys == old(db.keys) + Issued(keys, coins, now)
  {
    keys, ok := [], true;
    var i := 0;
    while i < quantity
      invariant 0 <= i <= quantity && |keys| == i
      invariant DrawnFrom(keys, picks) && Fresh(keys, old(db.keys))
      invariant db.keys == old(db.keys) + Issued(keys, coins, now)
    {
      var code := GenerateKeyCode(picks[i]);
      var inserted := db.AddKey(code, coins, now);
      if !inserted {
        ok := false;
        return;
      }
      IssueStep(keys, picks, old(db.keys), code, coins, now);
      keys := keys + [code];
      i := i + 1;
    }
  }

  /** The first line of the list and of the first chunk. */
  function Header(quantity: nat, coins: nat): string {
    "Generated " + NatToString(quantity) + " keys with " + NatToString(coins) + " coins each:\n```\n"
  }

  /** Each key followed by a line break. */
  function Block(keys: seq<string>): string {
    if keys == [] then "" else keys[0] + "\n" + Block(keys[1..])
  }

  lemma {:induction false} BlockAppend(keys: seq<string>, k: string)
    ensures Block(keys + [k]) == Block(keys) + (k + "\n")
    decreases |keys|
  {
    if keys != [] {
      assert (keys + [k])[1..] == keys[1..] + [k];
      BlockAppend(keys[1..], k);
    }
  }

  /** The key list of the single message is the same block of lines. */
  lemma {:induction false} JoinIsBlock(keys: seq<string>)
    requires keys != []
    ensures Join(keys, "\n") + "\n" == Block(keys)
    decreases |keys|
  {
    if |keys| > 1 {
      JoinIsBlock(keys[1..]);
    }
  }

  /** What chunk `i` starts with. */
  function Opener(header: string, i: nat): string {
    if i == 0 then header else "```\n"
  }

  /** Adding `key` to the open chunk `open` would take it, once closed, past
      2000 characters. */
  predicate Overflows(open: string, key: string) {
    |open + key + "\n```"| > Limit
  }

  /** How the chunking loop of commands/gen_key.js:44-56 groups the keys: a
      key that would push the open chunk, closed by "\n```", past 2000
      characters starts a new group. */
  function Groups(header: string, keys: seq<string>): (r: seq<seq<string>>)
    ensures |r| >= 1
    decreases |keys|
  {
    if keys == [] then [[]]
    else Extend(header, Groups(header, keys[..|keys| - 1]), keys[|keys| - 1])
  }

  /** Key `k` after the groups `gs`: it opens a new group when it overflows
      the last one, and joins that group otherwise. */
  function Extend(header: string, gs: seq<seq<string>>, k: string): (r: seq<seq<string>>)
    requires |gs| >= 1
    ensures |r| >= 1
  {
    var last := |gs| - 1;
    if Overflows(Opener(header, last) + Block(gs[last]), k) then gs + [[k]]
    else gs[..last] + [gs[last] + [k]]
  }

  /** The chunks sent, one per group, each closed by "```". */
  function Render(header: string, gs: seq<seq<string>>): (r: seq<string>)
    ensures |r| == |gs|
  {
    seq(|gs|, i requires 0 <= i < |gs| => Opener(header, i) + Block(gs[i]) + "```")
  }

  /** Reading the groups in order gives every key once, in order. */
  lemma {:induction false} GroupsKeepKeys(header: string, keys: seq<string>)
    ensures Flatten(Groups(header, keys)) == keys
    decreases |keys|
  {
    if keys != [] {
      var init := keys[..|keys| - 1];
      GroupsKeepKeys(header, init);
      ExtendKeepsKeys(header, Groups(header, init), keys[|keys| - 1]);
      assert init + [keys[|keys| - 1]] == keys;
    }
  }

  /** Extending the groups appends the key to what they read as. */
  lemma ExtendKeepsKeys(header: string, gs: seq<seq<string>>, k: string)
    requires |gs| >= 1
    ensures Flatten(Extend(header, gs, k)) == Flatten(gs) + [k]
  {
    var last := |gs| - 1;
    if Overflows(Opener(header, last) + Block(gs[last]), k) {
      assert Extend(header, gs, k) == gs + [[k]];
      FlattenAppend(gs, [k]);
    } else {
      assert Extend(header, gs, k) == gs[..last] + [gs[last] + [k]];
      JoinLastGroup(gs, k);
    }
  }

  lemma JoinLastGroup(gs: seq<seq<string>>, k: string)
    requires |gs| >= 1
    ensures Flatten(gs[..|gs| - 1] + [gs[|gs| - 1] + [k]]) == Flatten(gs) + [k]
  {
    var init, g := gs[..|gs| - 1], gs[|gs| - 1];
    assert gs == init + [g];
    FlattenAppend(init, g);
    FlattenAppend(init, g + [k]);
    assert Flatten(init) + (g + [k]) == Flatten(init) + g + [k];
  }

  /** Every open chunk leaves room for the closing "```". */
  predicate Room(header: string, gs: seq<seq<string>>) {
    forall i :: 0 <= i < |gs| ==> |Opener(header, i) + Block(gs[i])| + 3 <= Limit
  }

  lemma {:induction false} GroupsHaveRoom(header: string, keys: seq<string>)
    requires |header| + 3 <= Limit
    requires forall i :: 0 <= i < |keys| ==> |keys[i]| + 8 <= Limit
    ensures Room(header, Groups(header, keys))
    decreases |keys|
  {
    if keys != [] {
      var init := keys[..|keys| - 1];
      GroupsHaveRoom(header, init);
      ExtendHasRoom(header, Groups(header, init), keys[|keys| - 1]);
    }
  }

  /** A short key keeps room in every chunk. */
  lemma ExtendHasRoom(header: string, gs: seq<seq<string>>, k: string)
    requires |gs| >= 1 && Room(header, gs)
    requires |header| + 3 <= Limit && |k| + 8 <= Limit
    ensures Room(header, Extend(header, gs, k))
  {
    var last := |gs| - 1;
    if !Overflows(Opener(header, last) + Block(gs[last]), k) {
      BlockAppend(gs[last], k);
    }
  }

  /** With a short header and short keys, no chunk exceeds 2000 characters. */
  lemma ChunksFit(header: string, keys: seq<string>)
    requires |header| + 3 <= Limit
    requires forall i :: 0 <= i < |keys| ==> |keys[i]| + 8 <= Limit
    ensures forall c :: c in Render(header, Groups(header, keys)) ==> |c| <= Limit
  {
    GroupsHaveRoom(header, keys);
  }

  lemma RenderSnoc(header: string, gs: seq<seq<string>>, g: seq<string>)
    ensures Render(header, gs + [g]) == Render(header, gs) + [Opener(header, |gs|) + Block(g) + "```"]
  {
  }

  lemma Regroup(a: string, b: string, c: string)
    ensures a + b + c == a + (b + c)
  {
  }

  lemma GroupsSnoc(header: string, keys: seq<string>, k: string)
    ensures Groups(header, keys + [k]) == Extend(header, Groups(header, keys), k)
  {
    var ks := keys + [k];
    assert ks[..|ks| - 1] == keys && ks[|ks| - 1] == k;
  }

  /** The state of the chunking loop after the keys grouped as `gs`: the
      closed chunks render every group but the last, which is open. */
  predicate Chunking(header: string, gs: seq<seq<string>>, chunks: seq<string>, current: string) {
    |gs| >= 1 && |chunks| == |gs| - 1
    && chunks == Render(header, gs[..|chunks|])
    && current == Opener(header, |chunks|) + Block(gs[|chunks|])
  }

  lemma ChunkStep(header: string, gs: seq<seq<string>>, chunks: seq<string>, current: string, key: string)
    requires Chunking(header, gs, chunks, current)
    ensures Chunking(header, Extend(header, gs, key),
                     if Overflows(current, key) then chunks + [current + "```"] else chunks,
                     (if Overflows(current, key) then "```\n" else current) + (key + "\n"))
  {
    var last := |chunks|;
    if Overflows(current, key) {
      RenderSnoc(header, gs[..last], gs[last]);
      assert gs[..last] + [gs[last]] == gs;
      assert (gs + [[key]])[..last + 1] == gs;
      assert [key][1..] == [];
    } else {
      BlockAppend(gs[last], key);
      Regroup(Opener(header, last), Block(gs[last]), key + "\n");
      assert (gs[..last] + [gs[last] + [key]])[..last] == gs[..last];
    }
  }

  lemma ChunkEnd(header: string, gs: seq<seq<string>>, chunks: seq<string>, current: string)
    requires Chunking(header, gs, chunks, current)
    ensures chunks + [current + "```"] == Render(header, gs)
  {
    RenderSnoc(header, gs[..|chunks|], gs[|chunks|]);
    assert gs[..|chunks|] + [gs[|chunks|]] == gs;
  }

  /** One turn of the chunking loop keeps the groups of the keys seen. */
  lemma ChunkAdvance(header: string, keys: seq<string>, i: nat, gs: seq<seq<string>>, chunks: seq<string>, current: string)
    requires i < |keys| && gs == Groups(header, keys[..i]) && Chunking(header, gs, chunks, current)
    ensures Extend(header, gs, keys[i]) == Groups(header, keys[..i + 1])
    ensures Chunking(header, Extend(header, gs, keys[i]),
                     if Overflows(current, keys[i]) then chunks + [current + "```"] else chunks,
                     (if Overflows(current, keys[i]) then "```\n" else current) + (keys[i] + "\n"))
  {
    assert keys[..i] + [keys[i]] == keys[..i + 1];
    GroupsSnoc(header, keys[..i], keys[i]);
    ChunkStep(header, gs, chunks, current, keys[i]);
  }

  /** The chunking loop of commands/gen_key.js:45-56. */
  method ChunkKeys(header: string, keys: seq<string>) returns (chunks: seq<string>)
    ensures chunks == Render(header, Groups(header, keys))
  {
    chunks := [];
    var current := header;
    ghost var gs: seq<seq<string>> := [[]];
    var i := 0;
    while i < |keys|
      invariant 0 <= i <= |keys|
      invariant gs == Groups(header, keys[..i])
      invariant Chunking(header, gs, chunks, current)
    {
      var key := keys[i];
      ChunkAdvance(header, keys, i, gs, chunks, current);
      gs := Extend(header, gs, key);
      if Overflows(current, key) {
        chunks := chunks + [current + "```"];
        current := "```\n";
      }
      current := current + (key + "\n");
      i := i + 1;
    }
    assert keys[..i] == keys;
    ChunkEnd(header, gs, chunks, current);
    chunks := chunks + [current + "```"];
  }

  /** The replies of a successful /gen_key under `header`: one message when
      it fits in 2000 characters (commands/gen_key.js:43, 61-62), else the
      chunks. */
  function KeyMessages(header: string, keys: seq<string>): seq<string> {
    var message := header + Join(keys, "\n") + "\n```";
    if |message| <= Limit then [message] else Render(header, Groups(header, keys))
  }

  /** Every reply fits in 2000 characters. */
  lemma KeyMessagesFit(header: string, keys: seq<string>)
    requires |header| + 3 <= Limit
    requires forall i :: 0 <= i < |keys| ==> |keys[i]| + 8 <= Limit
    ensures forall m :: m in KeyMessages(header, keys) ==> |m| <= Limit
  {
    ChunksFit(header, keys);
  }

  /** The single message lists the keys as a one-group chunk would. */
  lemma SingleMessage(header: string, keys: seq<string>)
    requires keys != []
    ensures header + Join(keys, "\n") + "\n```" == Opener(header, 0) + Block(keys) + "```"
  {
    JoinIsBlock(keys);
    assert "\n```" == "\n" + "```";
  }

  /** Builds the replies of commands/gen_key.js:42-63. */
  method Replies(quantity: nat, coins: nat, keys: seq<string>) returns (messages: seq<string>)
    ensures messages == KeyMessages(Header(quantity, coins), keys)
  {
    var header := Header(quantity, coins);
    var message := header + Join(keys, "\n") + "\n```";
    if |message| > Limit {
      messages := ChunkKeys(header, keys);
    } else {
      messages := [message];
    }
  }

  /** The answers of /redeem. */
  datatype Redemption =
    | Blacklisted
    | InvalidKey
    | AlreadyRedeemed
    | Redeemed(coins: int, total: int)

  /** The key rows and the balances. */
  datatype Wallet = Wallet(keys: map<string, Key>, users: map<string, int>)

  /** commands/redeem.js:15-33: the code is upper-cased before the lookup; a
      blacklisted user, an unknown key and a redeemed key change nothing;
      otherwise the key is marked redeemed by the user and the balance rises
      by its coin amount. */
  function Redeem(w: Wallet, blacklisted: bool, typed: string, userId: string, now: int): (r: (Redemption, Wallet))
    ensures !r.0.Redeemed? ==> r.1 == w
    ensures r.0 == InvalidKey <==> !blacklisted && Upper(typed) !in w.keys
    ensures r.0 == AlreadyRedeemed <==> !blacklisted && Upper(typed) in w.keys && w.keys[Upper(typed)].redeemed
  {
    var code := Upper(typed);
    if blacklisted then (Blacklisted, w)
    else if code !in w.keys then (InvalidKey, w)
    else if w.keys[code].redeemed then (AlreadyRedeemed, w)
    else
      var amount := w.keys[code].coinAmount;
      var users := w.users[userId := Balance(w.users, userId) + amount];
      (Redeemed(amount, users[userId]),
       Wallet(w.keys[code := w.keys[code].(redeemed := true, redeemedBy := Some(userId), redeemedAt := Some(now))], users))
  }

  /** A successful redemption credits exactly the key's amount to the user
      alone and marks that key, and only it, redeemed by the user. */
  lemma RedeemCredits(w: Wallet, typed: string, userId: string, now: int)
    requires Upper(typed) in w.keys && !w.keys[Upper(typed)].redeemed
    ensures var (reply, v) := Redeem(w, false, typed, userId, now);
      var key := w.keys[Upper(typed)];
      reply == Redeemed(key.coinAmount, Balance(w.users, userId) + key.coinAmount)
      && v.users[userId] == Balance(w.users, userId) + key.coinAmount
      && (forall u :: u != userId ==> Balance(v.users, u) == Balance(w.users, u))
      && v.keys[Upper(typed)].redeemed && v.keys[Upper(typed)].redeemedBy == Some(userId)
      && v.keys - {Upper(typed)} == w.keys - {Upper(typed)}
  {
    var (reply, v) := Redeem(w, false, typed, userId, now);
    assert v.keys - {Upper(typed)} == w.keys - {Upper(typed)};
  }

  /** One after another, a key credits at most once: whoever then types it,
      in whatever case, is told it was redeemed and nothing changes. */
  lemma RedeemOnce(w: Wallet, typed: string, userId: string, now: int, again: string, other: string, later: int,
                   blacklisted: bool)
    requires Upper(again) == Upper(typed)
    requires Redeem(w, false, typed, userId, now).0.Redeemed?
    ensures var v := Redeem(w, false, typed, userId, now).1;
      Redeem(v, blacklisted, again, other, later) == (if blacklisted then Blacklisted else AlreadyRedeemed, v)
  {
  }

  /** /redeem on the database. */
  method RedeemCommand(db: Db, typed: string, userId: string, now: int) returns (reply: Redemption)
    modifies db`keys, db`users
    ensures (reply, Wallet(db.keys, db.users)) == Redeem(old(Wallet(db.keys, db.users)), userId in old(db.blacklist), typed, userId, now)
  {
    if userId in db.blacklist {
      return Blacklisted;
    }
    var code := Upper(typed);
    if code !in db.keys {
      return InvalidKey;
    }
    var key := db.keys[code];
    if key.redeemed {
      return AlreadyRedeemed;
    }
    db.RedeemKey(code, userId, now);
    db.AddCoins(userId, key.coinAmount);
    reply := Redeemed(key.coinAmount, db.users[userId]);
  }
}
