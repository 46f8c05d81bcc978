/** Crypto deposits (commands/deposit.js): the status line shown to the user
    and the poll that settles a deposit from the payment provider's status.
    The provider's answer is an input: a status, possibly missing, or an
    error. */
module Deposits {
  import opened Text
  import opened Database

  /** The emoji and the wording of each known payment status. */
  function Known(status: string): Option<(string, string)> {
    if status == "waiting" then Some(("⏳", "Waiting for Payment"))
    else if status == "confirming" then Some(("🔄", "Confirming Payment"))
    else if status == "sending" then Some(("📤", "Processing Payment"))
    else if status == "finished" then Some(("✅", "Payment Complete"))
    else if status == "confirmed" then Some(("✅", "Payment Confirmed"))
    else if status == "failed" then Some(("❌", "Payment Failed"))
    else if status == "expired" then Some(("⏰", "Payment Expired"))
    else None
  }

  /** getStatusDisplay (commands/deposit.js:7-28): a missing or empty status
      reads as 'waiting'; an unknown one shows the hourglass and 'Awaiting
      Payment'. */
  function StatusDisplay(status: Option<string>): (r: string)
    ensures status.None? || status.value == "" ==> r == "⏳ Waiting for Payment"
    ensures status.Some? && status.value != "" && Known(status.value).None? ==> r == "⏳ Awaiting Payment"
    ensures status.Some? && Known(status.value).Some? ==>
      r == Known(status.value).value.0 + " " + Known(status.value).value.1
  {
    var current := if status.None? || status.value == "" then "waiting" else status.value;
    match Known(current)
    case Some((emoji, text)) => emoji + " " + text
    case None => "⏳ Awaiting Payment"
  }

  /** Each known status has a line of its own, and none of them reads as an
      unknown status. */
  lemma StatusDisplayDistinct(s: string, t: string)
    requires Known(s).Some? && Known(t).Some? && s != t
    ensures StatusDisplay(Some(s)) != StatusDisplay(Some(t))
    ensures StatusDisplay(Some(s)) != "⏳ Awaiting Payment"
  {
    var ds, dt := StatusDisplay(Some(s)), StatusDisplay(Some(t));
    assert |Known(s).value.0| == 1 && |Known(t).value.0| == 1;
    assert ds[2..] == Known(s).value.1 && dt[2..] == Known(t).value.1;
  }

  /** What one poll of the provider returned. */
  datatype Poll = Fetched(status: Option<string>) | FetchError

  /** What checkPaymentStatus does next. */
  datatype Next = Complete | Fail | PollAgain

  /** commands/deposit.js:34, 76, 80-87: 'sending', 'finished' and
      'confirmed' complete the deposit; 'expired' and 'failed' fail it; any
      other status, a missing one, or an error polls again a minute later. */
  function Decision(p: Poll): (r: Next)
    ensures r == Complete <==> p.Fetched? && p.status.Some? && p.status.value in {"sending", "finished", "confirmed"}
    ensures r == Fail <==> p.Fetched? && p.status.Some? && p.status.value in {"expired", "failed"}
  {
    match p
    case FetchError => PollAgain
    case Fetched(status) =>
      if status == Some("sending") || status == Some("finished") || status == Some("confirmed") then Complete
      else if status == Some("expired") || status == Some("failed") then Fail
      else PollAgain
  }

  /** One poll: a completion marks the deposit 'completed' and credits
      `coins`; a failure marks it 'failed'; otherwise nothing changes. */
  function Polled(deposits: map<string, Deposit>, users: map<string, int>, paymentId: string, userId: string,
                  coins: int, p: Poll, now: int): (Next, map<string, Deposit>, map<string, int>) {
    var next := Decision(p);
    var status := if next == Complete then "completed" else "failed";
    var marked := if paymentId in deposits
      then deposits[paymentId := deposits[paymentId].(status := status, completedAt := CompletedAt(status, now))]
      else deposits;
    if next == PollAgain then (next, deposits, users)
    else if next == Complete then (next, marked, users[userId := Balance(users, userId) + coins])
    else (next, marked, users)
  }

  /** checkPaymentStatus (commands/deposit.js:29-88) for one answer of the
      provider; the returned `next` says whether it schedules itself again. */
  method CheckPaymentStatus(db: Db, paymentId: string, userId: string, coins: int, p: Poll, now: int)
    returns (next: Next)
    modifies db`deposits, db`users
    ensures (next, db.deposits, db.users) == Polled(old(db.deposits), old(db.users), paymentId, userId, coins, p, now)
  {
    next := Decision(p);
    if next == Complete {
      db.UpdateDepositStatus(paymentId, "completed", now);
      db.AddCoins(userId, coins);
    } else if next == Fail {
      db.UpdateDepositStatus(paymentId, "failed", now);
    }
  }

  /** The chain of polls a deposit goes through: polls go on while the
      answer says so, and the chain stops at the first completion or failure.
      `polls` pairs each answer with the time it arrives. */
  function Watch(deposits: map<string, Deposit>, users: map<string, int>, paymentId: string, userId: string,
                 coins: int, polls: seq<(Poll, int)>): (Option<Next>, map<string, Deposit>, map<string, int>)
  {
    if polls == [] then (None, deposits, users)
    else
      var (next, ds, us) := Polled(deposits, users, paymentId, userId, coins, polls[0].0, polls[0].1);
      if next == PollAgain then Watch(ds, us, paymentId, userId, coins, polls[1..])
      else (Some(next), ds, us)
  }

  /** However many polls it takes, a deposit credits its coins at most once,
      exactly when the chain ends in a completion, and credits no one else;
      a completed chain leaves the row 'completed'. */
  lemma {:induction false} WatchCreditsOnce(deposits: map<string, Deposit>, users: map<string, int>, paymentId: string,
                                            userId: string, coins: int, polls: seq<(Poll, int)>)
    ensures var (last, ds, us) := Watch(deposits, users, paymentId, userId, coins, polls);
      Balance(us, userId) == Balance(users, userId) + (if last == Some(Complete) then coins else 0)
      && (forall u :: u != userId ==> Balance(us, u) == Balance(users, u))
      && (last == Some(Complete) && paymentId in deposits ==> paymentId in ds && ds[paymentId].status == "completed")
      && (last.None? ==> ds == deposits && us == users)
    decreases |polls|
  {
    if polls != [] {
      var (next, ds, us) := Polled(deposits, users, paymentId, userId, coins, polls[0].0, polls[0].1);
      if next == PollAgain {
        WatchCreditsOnce(ds, us, paymentId, userId, coins, polls[1..]);
      }
    }
  }
}
