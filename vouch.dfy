/** Vouch rewards (utils/vouch.js): a message in the vouch channel that
    starts with '+rep' or '+vouch' earns 10 coins, at most once per 24 hours
    per user. The last reward times live in a JSON file that is read afresh
    on every use and may be missing or unreadable. */
module Vouch {
  import opened Text
  import opened Database

  /** 24 hours in milliseconds. */
  const Day: int := 24 * 60 * 60 * 1000

  /** The coins a vouch earns. */
  const Reward: int := 10

  /** The contents of vouch_data.json. */
  datatype VouchData = VouchData(stickyMessageId: Option<string>, cooldowns: map<string, int>)

  /** The data file as loadVouchData finds it. */
  datatype VouchFile = Missing | Unreadable | Stored(data: VouchData)

  /** loadVouchData (utils/vouch.js:8-21): a missing or unreadable file reads
      as no sticky message and no cooldowns. */
  function Load(f: VouchFile): (r: VouchData)
    ensures !f.Stored? ==> r.stickyMessageId.None? && r.cooldowns == map[]
    ensures f.Stored? ==> r == f.data
  {
    match f
    case Stored(data) => data
    case _ => VouchData(None, map[])
  }

  /** `vouchData.cooldowns[userId]`, with a missing record read as 0, which is
      as falsy as no record. */
  function LastVouch(d: VouchData, userId: string): int {
    if userId in d.cooldowns then d.cooldowns[userId] else 0
  }

  /** isOnCooldown (utils/vouch.js:62-69) */
  predicate OnCooldown(d: VouchData, userId: string, now: int) {
    LastVouch(d, userId) != 0 && now < LastVouch(d, userId) + Day
  }

  /** getRemainingCooldown (utils/vouch.js:70-78) */
  function Remaining(d: VouchData, userId: string, now: int): (r: int)
    ensures r >= 0
  {
    var last := LastVouch(d, userId);
    if last == 0 then 0
    else if last + Day - now > 0 then last + Day - now else 0
  }

  /** A user is on cooldown exactly when some time remains, and what remains
      never exceeds a day once the last vouch is in the past. */
  lemma CooldownIffRemaining(d: VouchData, userId: string, now: int)
    ensures OnCooldown(d, userId, now) <==> Remaining(d, userId, now) > 0
    ensures now >= LastVouch(d, userId) ==> Remaining(d, userId, now) <= Day
  {
  }

  /** The hours and minutes of the cooldown notice (utils/vouch.js:92-93). */
  function HoursMinutes(remaining: nat): (r: (nat, nat))
    ensures r.1 < 60
    ensures r.0 * 3600000 + r.1 * 60000 <= remaining < r.0 * 3600000 + (r.1 + 1) * 60000
  {
    (remaining / 3600000, (remaining % 3600000) / 60000)
  }

  /** utils/vouch.js:86-89: the lower-cased message starts with '+rep' or
      '+vouch'. */
  predicate IsVouch(content: string) {
    StartsWith(Lower(content), "+rep") || StartsWith(Lower(content), "+vouch")
  }

  /** A vouch starts with '+', and one typed as '+rep' or '+vouch' counts in
      whatever case the rest of the message is written. */
  lemma IsVouchShape(content: string)
    ensures IsVouch(content) ==> |content| >= 4 && content[0] == '+'
    ensures StartsWith(content, "+rep") || StartsWith(content, "+vouch") ==> IsVouch(content)
  {
    if |content| >= 4 {
      assert Lower(content)[0] == LowerChar(content[0]);
    }
    if StartsWith(content, "+rep") {
      assert Lower(content)[..4] == "+rep";
    }
    if StartsWith(content, "+vouch") {
      assert Lower(content)[..6] == "+vouch";
    }
  }

  /** The file after saveVouchData: a failed write leaves it as it was. */
  function Saved(f: VouchFile, d: VouchData, writeOk: bool): VouchFile {
    if writeOk then Stored(d) else f
  }

  /** The data after setCooldown (utils/vouch.js:79-83) at `now`. */
  function WithCooldown(f: VouchFile, userId: string, now: int): (r: VouchData)
    ensures LastVouch(r, userId) == now
    ensures forall u :: u != userId ==> LastVouch(r, u) == LastVouch(Load(f), u)
  {
    Load(f).(cooldowns := Load(f).cooldowns[userId := now])
  }

  /** The vouch data file. */
  class VouchStore {
    var file: VouchFile

    constructor (f: VouchFile)
      ensures file == f
    {
      file := f;
    }

    /** setCooldown: read the file, record `now` for the user, write it back. */
    method SetCooldown(userId: string, now: int, writeOk: bool)
      modifies this`file
      ensures file == Saved(old(file), WithCooldown(old(file), userId, now), writeOk)
    {
      var data := Load(file);
      data := data.(cooldowns := data.cooldowns[userId := now]);
      if writeOk {
        file := Stored(data);
      }
    }
  }

  /** processVouch (utils/vouch.js:84-145): a message that is not a vouch,
      and a user on cooldown, change nothing; otherwise the user is credited
      10 coins and the cooldown is set, unless crediting throws, which sets
      no cooldown. `creditFails` and `writeOk` stand for the database and the
      file system. */
  function Vouched(users: map<string, int>, f: VouchFile, userId: string, content: string, now: int,
                   creditFails: bool, writeOk: bool): (r: (bool, map<string, int>, VouchFile))
    ensures !r.0 ==> r.1 == users && r.2 == f
    ensures r.0 <==> IsVouch(content) && !OnCooldown(Load(f), userId, now) && !creditFails
  {
    if !IsVouch(content) || OnCooldown(Load(f), userId, now) || creditFails then (false, users, f)
    else (true, users[userId := Balance(users, userId) + Reward], Saved(f, WithCooldown(f, userId, now), writeOk))
  }

  /** processVouch on the balances and the data file. */
  method ProcessVouch(db: Db, store: VouchStore, userId: string, content: string, now: int,
                      creditFails: bool, writeOk: bool) returns (rewarded: bool)
    modifies db`users, store`file
    ensures (rewarded, db.users, store.file) ==
      Vouched(old(db.users), old(store.file), userId, content, now, creditFails, writeOk)
  {
    var lowered := Lower(content);
    if !StartsWith(lowered, "+rep") && !StartsWith(lowered, "+vouch") {
      return false;
    }
    if OnCooldown(Load(store.file), userId, now) {
      return false;
    }
    if creditFails {
      return false;
    }
    db.AddCoins(userId, Reward);
    store.SetCooldown(userId, now, writeOk);
    rewarded := true;
  }

  /** Once rewarded (and the file written), the same user earns nothing for
      the next 24 hours, and once they have passed the next vouch is rewarded
      again unless crediting fails. */
  lemma OncePerDay(users: map<string, int>, f: VouchFile, userId: string, content: string, now: int,
                   content2: string, later: int, creditFails2: bool, writeOk2: bool)
    requires now > 0
    requires Vouched(users, f, userId, content, now, false, true).0
    ensures var (_, us, g) := Vouched(users, f, userId, content, now, false, true);
      Balance(us, userId) == Balance(users, userId) + Reward
      && (now <= later < now + Day ==>
            Vouched(us, g, userId, content2, later, creditFails2, writeOk2) == (false, us, g))
      && (later >= now + Day && IsVouch(content2) && !creditFails2 ==>
            Vouched(us, g, userId, content2, later, creditFails2, writeOk2).0)
  {
    var g := Vouched(users, f, userId, content, now, false, true).2;
    assert Load(g) == WithCooldown(f, userId, now);
  }

  /** With an unreadable file, a reward writes back a file that remembers
      only that user: every other cooldown is forgotten. */
  lemma UnreadableFileForgets(users: map<string, int>, userId: string, content: string, now: int)
    requires Vouched(users, Unreadable, userId, content, now, false, true).0
    ensures Vouched(users, Unreadable, userId, content, now, false, true).2
      == Stored(VouchData(None, map[userId := now]))
  {
  }
}
