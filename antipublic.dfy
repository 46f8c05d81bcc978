/** The delivered-username ledger of utils/antipublic.js: a Minecraft username
    is pulled out of each account line, and an account whose username was
    already delivered (compared ignoring case) is never handed out again. */
module Antipublic {
  import opened Text
  import opened Stock

  const TokenMarker: string := " | accesstoken:"

  /** Neither empty nor shaped like an e-mail address or a domain. */
  predicate Plausible(s: string) {
    s != "" && '@' !in s && '.' !in s
  }

  /** The token layout `… - … - … - … - [name] | accesstoken:…`: the fifth
      " - " piece, cut before " | " and trimmed, must be bracketed. */
  function TokenUsername(content: string): (r: Option<string>)
    ensures r.Some? ==> Contains(content, TokenMarker)
  {
    if !Contains(content, TokenMarker) then None
    else
      var parts := Split(content, " - ");
      if |parts| < 5 then None
      else
        var segment := Trim(Split(parts[4], " | ")[0]);
        if StartsWith(segment, "[") && EndsWith(segment, "]") then Some(segment[1..|segment| - 1])
        else None
  }

  /** The ':' layouts: the last of three or more parts, else the first of two
      or more, trimmed, when plausible. */
  function ColonUsername(parts: seq<string>): (r: Option<string>)
    requires |parts| >= 1
    ensures r.Some? ==> Plausible(r.value)
    ensures r.Some? ==> r.value == Trim(parts[0]) || r.value == Trim(parts[|parts| - 1])
  {
    var last := Trim(parts[|parts| - 1]);
    var first := Trim(parts[0]);
    if |parts| >= 3 && Plausible(last) then Some(last)
    else if |parts| >= 2 && Plausible(first) then Some(first)
    else None
  }

  /** extractMinecraftUsername: the token layout first, then the ':' layouts;
      None when nothing fits. The token layout can yield "", which every
      caller treats like None. */
  function ExtractUsername(content: string): (r: Option<string>)
    ensures r.Some? && !Contains(content, TokenMarker) ==> Plausible(r.value)
  {
    match TokenUsername(content)
    case Some(u) => Some(u)
    case None => ColonUsername(Split(content, ":"))
  }

  /** `if (!username)`: null and "" both mean no username. */
  predicate Named(u: Option<string>) {
    u.Some? && u.value != ""
  }

  /** Content without a '|' is not in the token layout. */
  lemma NoTokenLayout(content: string)
    requires '|' !in content
    ensures ExtractUsername(content) == ColonUsername(Split(content, ":"))
  {
    if Contains(content, TokenMarker) {
      ContainsChar(content, TokenMarker, '|');
      assert false;
    }
  }

  /** `x:y` splits into its two parts. */
  lemma SplitColon(x: string, y: string)
    requires ':' !in x && ':' !in y
    ensures Split(x + ":" + y, ":") == [x, y]
  {
    assert x + ":" + y == x + [':'] + y;
    SplitConcat(x, ':', y);
    SplitNoSeparator(x, ':');
    SplitNoSeparator(y, ':');
  }

  /** `x:y:z` splits into its three parts. */
  lemma SplitColons(x: string, y: string, z: string)
    requires ':' !in x && ':' !in y && ':' !in z
    ensures Split(x + ":" + y + ":" + z, ":") == [x, y, z]
  {
    assert x + ":" + y + ":" + z == x + [':'] + (y + ":" + z);
    SplitConcat(x, ':', y + ":" + z);
    SplitNoSeparator(x, ':');
    SplitColon(y, z);
  }

  /** `email:password:name` yields the name. */
  lemma ColonLayout(email: string, password: string, name: string)
    requires ':' !in email && ':' !in password && ':' !in name && '|' !in email + password + name
    requires Plausible(name) && IsTrimmed(name)
    ensures ExtractUsername(email + ":" + password + ":" + name) == Some(name)
  {
    var content := email + ":" + password + ":" + name;
    SplitColons(email, password, name);
    assert '|' !in content;
    NoTokenLayout(content);
    TrimOfTrimmed(name);
  }

  /** `name:password` yields the name when it is plausible. */
  lemma PairLayout(name: string, password: string)
    requires ':' !in name && ':' !in password && '|' !in name + password
    requires Plausible(name) && IsTrimmed(name)
    ensures ExtractUsername(name + ":" + password) == Some(name)
  {
    var content := name + ":" + password;
    SplitColon(name, password);
    assert '|' !in content;
    NoTokenLayout(content);
    TrimOfTrimmed(name);
  }

  /** An e-mail address and a password, such as `a@b.com:pass`, yield no username. */
  lemma EmailPairHasNone(email: string, password: string)
    requires ':' !in email && ':' !in password && '|' !in email + password
    requires '@' in email && IsTrimmed(email)
    ensures ExtractUsername(email + ":" + password) == None
  {
    var content := email + ":" + password;
    SplitColon(email, password);
    assert '|' !in content;
    NoTokenLayout(content);
    TrimOfTrimmed(email);
  }

  /** Cutting `x - y` at its first " - ", for `x` without '-'. */
  lemma SplitDash(x: string, y: string)
    requires '-' !in x
    ensures Split(x + " - " + y, " - ") == [x] + Split(y, " - ")
  {
    assert " - " == [' ', '-', ' '];
    SplitSpaced(x, '-', y);
  }

  /** The last three " - " pieces of a token line. */
  lemma SplitDashesTail(c: string, d: string, fifth: string)
    requires '-' !in c && '-' !in d && '-' !in fifth
    ensures Split(c + " - " + d + " - " + fifth, " - ") == [c, d, fifth]
  {
    SplitSpacedNone(fifth, '-');
    assert " - " == [' ', '-', ' '];
    SplitDash(d, fifth);
    SplitDash(c, d + " - " + fifth);
    assert c + " - " + d + " - " + fifth == c + " - " + (d + " - " + fifth);
  }

  /** The five " - " pieces of a token line. */
  lemma SplitDashes(a: string, b: string, c: string, d: string, fifth: string)
    requires '-' !in a && '-' !in b && '-' !in c && '-' !in d && '-' !in fifth
    ensures Split(a + " - " + b + " - " + c + " - " + d + " - " + fifth, " - ") == [a, b, c, d, fifth]
  {
    var t := c + " - " + d + " - " + fifth;
    SplitDashesTail(c, d, fifth);
    SplitDash(b, t);
    SplitDash(a, b + " - " + t);
    Regroup5(a + " - " + b + " - ", c, " - ", d, " - ", fifth);
    Regroup3(a + " - ", b, " - ", t);
  }

  lemma Regroup3(x: string, p: string, q: string, r: string)
    ensures x + p + q + r == x + (p + q + r)
  {
  }

  lemma Regroup5(x: string, p: string, q: string, r: string, s: string, t: string)
    ensures x + p + q + r + s + t == x + (p + q + r + s + t)
  {
  }

  /** The bracketed segment of the fifth piece yields the name. */
  lemma BracketedName(name: string, tail: string)
    requires '|' !in name && '-' !in name
    ensures Trim(Split("[" + name + "]" + " | " + tail, " | ")[0]) == "[" + name + "]"
  {
    var bracketed := "[" + name + "]";
    assert " | " == [' ', '|', ' '];
    SplitSpaced(bracketed, '|', tail);
    TrimOfTrimmed(bracketed);
  }

  /** A token line whose fifth piece starts with a bracketed name yields it. */
  lemma TokenOfPieces(content: string, name: string)
    requires Contains(content, TokenMarker) && |Split(content, " - ")| >= 5
    requires Trim(Split(Split(content, " - ")[4], " | ")[0]) == "[" + name + "]"
    ensures ExtractUsername(content) == Some(name)
  {
    var segment := "[" + name + "]";
    assert StartsWith(segment, "[") && EndsWith(segment, "]");
    assert segment[1..|segment| - 1] == name;
  }

  /** The token layout yields the bracketed name of the fifth " - " piece. */
  lemma TokenLayout(a: string, b: string, c: string, d: string, name: string, token: string)
    requires '-' !in a && '-' !in b && '-' !in c && '-' !in d && '-' !in name && '-' !in token
    requires '|' !in name
    ensures ExtractUsername(a + " - " + b + " - " + c + " - " + d + " - [" + name + "]" + TokenMarker + token) == Some(name)
  {
    var bracketed := "[" + name + "]";
    var fifth := bracketed + " | " + ("accesstoken:" + token);
    var content := a + " - " + b + " - " + c + " - " + d + " - " + fifth;
    assert content == a + " - " + b + " - " + c + " - " + d + " - [" + name + "]" + TokenMarker + token;
    assert content == (a + " - " + b + " - " + c + " - " + d + " - " + bracketed) + TokenMarker + token;
    ContainsMiddle(a + " - " + b + " - " + c + " - " + d + " - " + bracketed, TokenMarker, token);
    SplitDashes(a, b, c, d, fifth);
    BracketedName(name, "accesstoken:" + token);
    TokenOfPieces(content, name);
  }

  /** A row of delivered_accounts. */
  datatype Delivery = Delivery(userId: string, orderId: string, productName: string,
                               deliveredAt: int, accountData: string)

  /** `SELECT … WHERE LOWER(minecraft_username) = LOWER(?)` finds a row. */
  predicate DeliveredIn(rows: map<string, Delivery>, username: string) {
    username != "" && exists k :: k in rows && Lower(k) == Lower(username)
  }

  /** Recording a name makes it, and every name equal to it ignoring case,
      delivered; names that differ from it keep their answer. */
  lemma RecordThenDelivered(rows: map<string, Delivery>, name: string, d: Delivery, other: string)
    requires name != "" && other != ""
    ensures DeliveredIn(rows[name := d], other) <==> DeliveredIn(rows, other) || Lower(name) == Lower(other)
  {
    if DeliveredIn(rows, other) {
      var k :| k in rows && Lower(k) == Lower(other);
      assert k in rows[name := d];
    }
    if Lower(name) == Lower(other) {
      assert name in rows[name := d];
    }
  }

  /** The username of each account, as filterDeliveredAccounts and
      recordMultipleDeliveredAccounts extract it. */
  function Usernames(accounts: seq<Unit>): (r: seq<Option<string>>)
    ensures |r| == |accounts|
  {
    if accounts == [] then [] else [ExtractUsername(accounts[0].content)] + Usernames(accounts[1..])
  }

  /** An account whose username is `u` is turned away when that name is
      already in the ledger. */
  predicate Rejects(rows: map<string, Delivery>, u: Option<string>) {
    Named(u) && DeliveredIn(rows, u.value)
  }

  /** The accounts filterDeliveredAccounts keeps, in order; `names[k]` is the
      username of `accounts[k]`. */
  function Kept(rows: map<string, Delivery>, accounts: seq<Unit>, names: seq<Option<string>>): (r: seq<Unit>)
    requires |names| == |accounts|
    ensures |r| <= |accounts|
    decreases |accounts|
  {
    if accounts == [] then []
    else
      var rest := Kept(rows, accounts[1..], names[1..]);
      if Rejects(rows, names[0]) then rest else [accounts[0]] + rest
  }

  /** The accounts filterDeliveredAccounts turns away, in order, with their
      usernames: exactly those whose username is already delivered. */
  function Turned(rows: map<string, Delivery>, accounts: seq<Unit>, names: seq<Option<string>>): (r: seq<(Unit, string)>)
    requires |names| == |accounts|
    ensures |r| <= |accounts|
    decreases |accounts|
  {
    if accounts == [] then []
    else
      var rest := Turned(rows, accounts[1..], names[1..]);
      if Rejects(rows, names[0]) then [(accounts[0], names[0].value)] + rest else rest
  }

  /** Kept and Turned taken from position i on start with account i's verdict. */
  lemma FilterUnfold(rows: map<string, Delivery>, accounts: seq<Unit>, names: seq<Option<string>>, i: int)
    requires |names| == |accounts| && 0 <= i < |accounts|
    ensures Kept(rows, accounts[i..], names[i..])
      == (if Rejects(rows, names[i]) then [] else [accounts[i]]) + Kept(rows, accounts[i + 1..], names[i + 1..])
    ensures Turned(rows, accounts[i..], names[i..])
      == (if Rejects(rows, names[i]) then [(accounts[i], names[i].value)] else []) + Turned(rows, accounts[i + 1..], names[i + 1..])
  {
    assert accounts[i..][1..] == accounts[i + 1..] && names[i..][1..] == names[i + 1..];
  }

  /** A unit is kept iff its username is not already delivered (units without
      a username are always kept), and turned away, with its username, iff it is. */
  lemma {:induction false} FilterMembers(rows: map<string, Delivery>, accounts: seq<Unit>, names: seq<Option<string>>)
    requires |names| == |accounts|
    ensures forall a :: a in Kept(rows, accounts, names) ==> a in accounts
    ensures forall k :: 0 <= k < |accounts| && !Rejects(rows, names[k]) ==> accounts[k] in Kept(rows, accounts, names)
    ensures forall p :: p in Turned(rows, accounts, names) ==> p.0 in accounts && Rejects(rows, Some(p.1))
    ensures forall k :: 0 <= k < |accounts| && Rejects(rows, names[k]) ==> (accounts[k], names[k].value) in Turned(rows, accounts, names)
    decreases |accounts|
  {
    if accounts != [] {
      FilterMembers(rows, accounts[1..], names[1..]);
      forall k | 1 <= k < |accounts|
        ensures accounts[k] == accounts[1..][k - 1] && names[k] == names[1..][k - 1]
      {
      }
    }
  }

  /** Every account lands in exactly one of the two lists. */
  lemma {:induction false} FilterPartitions(rows: map<string, Delivery>, accounts: seq<Unit>, names: seq<Option<string>>)
    requires |names| == |accounts|
    ensures |Kept(rows, accounts, names)| + |Turned(rows, accounts, names)| == |accounts|
    decreases |accounts|
  {
    if accounts != [] {
      FilterPartitions(rows, accounts[1..], names[1..]);
    }
  }

  /** Filtering compares against the ledger only: when no account of the batch
      was delivered before, all are kept, even two with the same username. */
  lemma {:induction false} NoBatchDedup(rows: map<string, Delivery>, accounts: seq<Unit>, names: seq<Option<string>>)
    requires |names| == |accounts|
    requires forall k :: 0 <= k < |accounts| ==> !Rejects(rows, names[k])
    ensures Kept(rows, accounts, names) == accounts
    decreases |accounts|
  {
    if accounts != [] {
      NoBatchDedup(rows, accounts[1..], names[1..]);
    }
  }

  /** One step of recordMultipleDeliveredAccounts: the upsert when the account
      has a username and the write succeeds. */
  function RecordStep(rows: map<string, Delivery>, account: Unit, u: Option<string>, fails: bool,
                      userId: string, orderId: string, productName: string, now: int): map<string, Delivery>
  {
    if Named(u) && !fails then rows[u.value := Delivery(userId, orderId, productName, now, account.content)]
    else rows
  }

  /** The ledger after recordMultipleDeliveredAccounts. */
  function Upserts(rows: map<string, Delivery>, accounts: seq<Unit>, names: seq<Option<string>>, fails: seq<bool>,
                   userId: string, orderId: string, productName: string, now: int): (r: map<string, Delivery>)
    requires |names| == |accounts| && |fails| == |accounts|
    ensures rows.Keys <= r.Keys
    decreases |accounts|
  {
    if accounts == [] then rows
    else Upserts(RecordStep(rows, accounts[0], names[0], fails[0], userId, orderId, productName, now),
                 accounts[1..], names[1..], fails[1..], userId, orderId, productName, now)
  }

  /** The usernames recordMultipleDeliveredAccounts reports, in order. */
  function RecordedNames(names: seq<Option<string>>, fails: seq<bool>): (r: seq<string>)
    requires |fails| == |names|
    ensures |r| <= |names|
    ensures forall n :: n in r ==> n != ""
    decreases |names|
  {
    if names == [] then []
    else (if Named(names[0]) && !fails[0] then [names[0].value] else []) + RecordedNames(names[1..], fails[1..])
  }

  /** RecordedNames and Upserts taken from position i on start with account i's write. */
  lemma RecordUnfold(rows: map<string, Delivery>, accounts: seq<Unit>, names: seq<Option<string>>, fails: seq<bool>,
                     userId: string, orderId: string, productName: string, now: int, i: int)
    requires |names| == |accounts| && |fails| == |accounts| && 0 <= i < |accounts|
    ensures RecordedNames(names[i..], fails[i..])
      == (if Named(names[i]) && !fails[i] then [names[i].value] else []) + RecordedNames(names[i + 1..], fails[i + 1..])
    ensures Upserts(rows, accounts[i..], names[i..], fails[i..], userId, orderId, productName, now)
      == Upserts(RecordStep(rows, accounts[i], names[i], fails[i], userId, orderId, productName, now),
                 accounts[i + 1..], names[i + 1..], fails[i + 1..], userId, orderId, productName, now)
  {
    assert accounts[i..][1..] == accounts[i + 1..] && names[i..][1..] == names[i + 1..] && fails[i..][1..] == fails[i + 1..];
  }

  /** Every reported username is in the ledger afterwards, under that exact key. */
  lemma {:induction false} RecordedAreStored(rows: map<string, Delivery>, accounts: seq<Unit>, names: seq<Option<string>>,
                                             fails: seq<bool>, userId: string, orderId: string, productName: string, now: int)
    requires |names| == |accounts| && |fails| == |accounts|
    ensures forall n :: n in RecordedNames(names, fails) ==>
      n in Upserts(rows, accounts, names, fails, userId, orderId, productName, now)
      && DeliveredIn(Upserts(rows, accounts, names, fails, userId, orderId, productName, now), n)
    decreases |accounts|
  {
    if accounts != [] {
      var next := RecordStep(rows, accounts[0], names[0], fails[0], userId, orderId, productName, now);
      RecordedAreStored(next, accounts[1..], names[1..], fails[1..], userId, orderId, productName, now);
      var after := Upserts(rows, accounts, names, fails, userId, orderId, productName, now);
      forall n | n in RecordedNames(names, fails)
        ensures n in after && DeliveredIn(after, n)
      {
        if !(n in RecordedNames(names[1..], fails[1..])) {
          assert n == names[0].value && n in next;
        }
      }
    }
  }

  /** Accounts without a username, or whose write failed, leave the ledger as it was. */
  lemma {:induction false} NothingToRecord(rows: map<string, Delivery>, accounts: seq<Unit>, names: seq<Option<string>>,
                                           fails: seq<bool>, userId: string, orderId: string, productName: string, now: int)
    requires |names| == |accounts| && |fails| == |accounts|
    requires RecordedNames(names, fails) == []
    ensures Upserts(rows, accounts, names, fails, userId, orderId, productName, now) == rows
    decreases |accounts|
  {
    if accounts != [] {
      assert !(Named(names[0]) && !fails[0]);
      NothingToRecord(rows, accounts[1..], names[1..], fails[1..], userId, orderId, productName, now);
    }
  }

  /** The state of filterDeliveredAccounts before account i: what is left
      to do completes both lists. */
  predicate Filtering(rows: map<string, Delivery>, accounts: seq<Unit>, names: seq<Option<string>>, i: nat,
                      kept: seq<Unit>, turned: seq<(Unit, string)>)
  {
    |names| == |accounts| && i <= |accounts|
    && kept + Kept(rows, accounts[i..], names[i..]) == Kept(rows, accounts, names)
    && turned + Turned(rows, accounts[i..], names[i..]) == Turned(rows, accounts, names)
  }

  lemma FilterAdvance(rows: map<string, Delivery>, accounts: seq<Unit>, names: seq<Option<string>>, i: nat,
                      kept: seq<Unit>, turned: seq<(Unit, string)>)
    requires Filtering(rows, accounts, names, i, kept, turned) && i < |accounts|
    ensures Filtering(rows, accounts, names, i + 1,
                      kept + (if Rejects(rows, names[i]) then [] else [accounts[i]]),
                      turned + (if Rejects(rows, names[i]) then [(accounts[i], names[i].value)] else []))
  {
    FilterUnfold(rows, accounts, names, i);
    var k := if Rejects(rows, names[i]) then [] else [accounts[i]];
    var t := if Rejects(rows, names[i]) then [(accounts[i], names[i].value)] else [];
    assert kept + k + Kept(rows, accounts[i + 1..], names[i + 1..]) == kept + (k + Kept(rows, accounts[i + 1..], names[i + 1..]));
    assert turned + t + Turned(rows, accounts[i + 1..], names[i + 1..]) == turned + (t + Turned(rows, accounts[i + 1..], names[i + 1..]));
  }

  /** The state of recordMultipleDeliveredAccounts before account i: what is
      left to do completes both the report and the ledger. */
  predicate Recording(rows: map<string, Delivery>, start: map<string, Delivery>, accounts: seq<Unit>,
                      names: seq<Option<string>>, fails: seq<bool>, userId: string, orderId: string,
                      productName: string, now: int, i: nat, recorded: seq<string>)
  {
    |names| == |accounts| && |fails| == |accounts| && i <= |accounts|
    && recorded + RecordedNames(names[i..], fails[i..]) == RecordedNames(names, fails)
    && Upserts(rows, accounts[i..], names[i..], fails[i..], userId, orderId, productName, now)
       == Upserts(start, accounts, names, fails, userId, orderId, productName, now)
  }

  lemma RecordAdvance(rows: map<string, Delivery>, start: map<string, Delivery>, accounts: seq<Unit>,
                      names: seq<Option<string>>, fails: seq<bool>, userId: string, orderId: string,
                      productName: string, now: int, i: nat, recorded: seq<string>)
    requires Recording(rows, start, accounts, names, fails, userId, orderId, productName, now, i, recorded)
    requires i < |accounts|
    ensures Recording(RecordStep(rows, accounts[i], names[i], fails[i], userId, orderId, productName, now),
                      start, accounts, names, fails, userId, orderId, productName, now, i + 1,
                      recorded + (if Named(names[i]) && !fails[i] then [names[i].value] else []))
  {
    RecordUnfold(rows, accounts, names, fails, userId, orderId, productName, now, i);
    var step := if Named(names[i]) && !fails[i] then [names[i].value] else [];
    assert recorded + step + RecordedNames(names[i + 1..], fails[i + 1..])
        == recorded + (step + RecordedNames(names[i + 1..], fails[i + 1..]));
  }

  /** delivered_accounts: UNIQUE on the exact username, so a map keyed by it. */
  class Ledger {
    var rows: map<string, Delivery>

    constructor ()
      ensures rows == map[]
    {
      rows := map[];
    }

    /** isUsernameDelivered */
    predicate IsDelivered(username: Option<string>)
      reads this
    {
      Named(username) && DeliveredIn(rows, username.value)
    }

    /** recordDeliveredAccount: no row for a missing name; otherwise INSERT OR
        REPLACE keyed by the exact name, unless the write fails. */
    method Record(username: Option<string>, userId: string, orderId: string, productName: string,
                  now: int, accountData: string, fails: bool) returns (ok: bool)
      modifies this`rows
      ensures ok <==> !Named(username) || !fails
      ensures Named(username) && !fails ==>
        rows == old(rows)[username.value := Delivery(userId, orderId, productName, now, accountData)]
      ensures !(Named(username) && !fails) ==> rows == old(rows)
    {
      if !Named(username) {
        return true;
      }
      if fails {
        return false;
      }
      rows := rows[username.value := Delivery(userId, orderId, productName, now, accountData)];
      ok := true;
    }

    /** filterDeliveredAccounts: the accounts to keep and those already
        delivered, each list in input order. */
    method FilterDelivered(accounts: seq<Unit>) returns (kept: seq<Unit>, turned: seq<(Unit, string)>)
      ensures kept == Kept(rows, accounts, Usernames(accounts))
      ensures turned == Turned(rows, accounts, Usernames(accounts))
    {
      var names := Usernames(accounts);
      kept, turned := [], [];
      var i := 0;
      assert accounts[i..] == accounts && names[i..] == names;
      while i < |accounts|
        invariant Filtering(rows, accounts, names, i, kept, turned)
      {
        FilterAdvance(rows, accounts, names, i, kept, turned);
        var account, username := accounts[i], names[i];
        if !Named(username) {
          kept := kept + [account];
        } else if IsDelivered(username) {
          turned := turned + [(account, username.value)];
        } else {
          kept := kept + [account];
        }
        i := i + 1;
      }
      assert accounts[i..] == [] && names[i..] == [];
    }

    /** One account of recordMultipleDeliveredAccounts: the username it
        reports, if any. */
    method RecordOne(account: Unit, username: Option<string>, userId: string, orderId: string, productName: string,
                     now: int, fails: bool) returns (step: seq<string>)
      modifies this`rows
      ensures rows == RecordStep(old(rows), account, username, fails, userId, orderId, productName, now)
      ensures step == if Named(username) && !fails then [username.value] else []
    {
      step := [];
      if Named(username) {
        var ok := Record(username, userId, orderId, productName, now, account.content, fails);
        if ok {
          step := [username.value];
        }
      }
    }

    /** recordMultipleDeliveredAccounts: record each account's username,
        skipping accounts without one and writes that fail; `fails[k]` says
        whether the write for account k fails. */
    method RecordMultiple(accounts: seq<Unit>, userId: string, orderId: string, productName: string,
                          now: int, fails: seq<bool>) returns (recorded: seq<string>)
      requires |fails| == |accounts|
      modifies this`rows
      ensures recorded == RecordedNames(Usernames(accounts), fails)
      ensures rows == Upserts(old(rows), accounts, Usernames(accounts), fails, userId, orderId, productName, now)
    {
      var names := Usernames(accounts);
      recorded := [];
      var i := 0;
      assert accounts[i..] == accounts && names[i..] == names && fails[i..] == fails;
      while i < |accounts|
        invariant Recording(rows, old(rows), accounts, names, fails, userId, orderId, productName, now, i, recorded)
      {
        RecordAdvance(rows, old(rows), accounts, names, fails, userId, orderId, productName, now, i, recorded);
        var step := RecordOne(accounts[i], names[i], userId, orderId, productName, now, fails[i]);
        recorded := recorded + step;
        i := i + 1;
      }
    }
  }
}
