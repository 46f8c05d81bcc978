/** Refunds: /refund (commands/refund.js) checks the order and asks for proof
    in a modal whose custom ID carries the order and the amount; the modal
    submission (bot.js:90-141) turns the remembered request into a 'pending'
    refund row; an approve or decline decision (bot.js:191-261) settles it. */
module Refunds {
  import opened Text
  import opened Ids
  import opened Database

  /** generateRefundId: `REF-` and two groups of five. */
  method GenerateRefundId(picks: seq<nat>) returns (id: string)
    requires |picks| == 10 && forall k :: 0 <= k < |picks| ==> picks[k] < |Alphabet|
    ensures Shaped(id, "REF-", 2) && Filled(id, "REF-", picks)
    ensures |id| == 15 && '_' !in id
  {
    id := RandomId("REF-", 2, picks);
    assert "REF-"[..] == ['R', 'E', 'F', '-'];
    ShapedNoUnderscore(id, "REF-", 2);
  }

  /** Two hours, in milliseconds. */
  const Window: int := 2 * 60 * 60 * 1000

  /** `(now - new Date(completed_at)) / 3600000 <= 2`; a NULL completed_at
      reads as the epoch. */
  function WithinWindow(completedAt: Option<int>, now: int): (r: bool)
    ensures var t := if completedAt.Some? then completedAt.value else 0;
      r <==> (now - t) as real / 3600000.0 <= 2.0
  {
    var t := if completedAt.Some? then completedAt.value else 0;
    now - t <= Window
  }

  /** The answers of /refund. */
  datatype RequestReply =
    | Blacklisted
    | OrderNotFound
    | NotOwner
    | NotCompleted
    | ExceedsTotal(totalCost: int)
    | TooLate
    | ProofRequested(customId: string)
    | RequestFailed

  /** The custom ID of the proof modal (commands/refund.js:67). */
  function CustomId(orderId: string, amount: nat): string {
    "refund_proof_" + orderId + "_" + NatToString(amount)
  }

  /** The key of the remembered request (commands/refund.js:80). */
  function PendingKey(orderId: string, amount: nat): string {
    orderId + "_" + NatToString(amount)
  }

  /** commands/refund.js:36-67: the order ID is upper-cased; the request is
      refused for a blacklisted user, a missing order, someone else's order, an
      order that is not 'completed', an amount above the order's total, or a
      request more than two hours after completion. */
  function Request(orders: map<string, Order>, blacklisted: bool, typed: string, amount: nat,
                   userId: string, now: int): (r: RequestReply)
    ensures r.ProofRequested? <==>
      !blacklisted && Upper(typed) in orders && orders[Upper(typed)].userId == userId
      && orders[Upper(typed)].status == "completed" && amount <= orders[Upper(typed)].totalCost
      && WithinWindow(orders[Upper(typed)].completedAt, now)
    ensures r.ProofRequested? ==> r.customId == CustomId(Upper(typed), amount)
    ensures r == OrderNotFound <==> !blacklisted && Upper(typed) !in orders
    ensures r.ExceedsTotal? ==> amount > r.totalCost
  {
    var orderId := Upper(typed);
    if blacklisted then Blacklisted
    else if orderId !in orders then OrderNotFound
    else
      var order := orders[orderId];
      if order.userId != userId then NotOwner
      else if order.status != "completed" then NotCompleted
      else if amount > order.totalCost then ExceedsTotal(order.totalCost)
      else if !WithinWindow(order.completedAt, now) then TooLate
      else ProofRequested(CustomId(orderId, amount))
  }

  /** What /refund remembers until the proof arrives. */
  datatype Pending = Pending(orderId: string, requestedAmount: nat, reason: string, userId: string, order: Order)

  /** commands/refund.js:78-86: once the proof modal is shown, an accepted
      request is stored under its key, replacing any entry with the same key;
      when `showModal` throws, the catch (commands/refund.js:87-90) is reached
      before anything is stored. */
  function Remembered(pending: map<string, Pending>, orders: map<string, Order>, blacklisted: bool,
                      typed: string, amount: nat, reason: string, userId: string, now: int,
                      modalFails: bool): map<string, Pending> {
    if Request(orders, blacklisted, typed, amount, userId, now).ProofRequested? && !modalFails then
      pending[PendingKey(Upper(typed), amount) := Pending(Upper(typed), amount, reason, userId, orders[Upper(typed)])]
    else pending
  }

  /** `client.refundData`, which the bot keeps in memory between a request
      and its proof. */
  class Client {
    var refundData: map<string, Pending>

    constructor ()
      ensures refundData == map[]
    {
      refundData := map[];
    }
  }

  /** /refund on the database and the client; `modalFails` says whether
      `showModal` throws, which ends in the catch's "Failed to process refund
      request!". */
  method RequestRefund(db: Db, client: Client, typed: string, amount: nat, reason: string,
                       userId: string, now: int, modalFails: bool) returns (reply: RequestReply)
    modifies client`refundData
    ensures var r := Request(db.orders, userId in db.blacklist, typed, amount, userId, now);
      reply == if r.ProofRequested? && modalFails then RequestFailed else r
    ensures client.refundData == Remembered(old(client.refundData), db.orders, userId in db.blacklist,
                                            typed, amount, reason, userId, now, modalFails)
  {
    if userId in db.blacklist {
      return Blacklisted;
    }
    var orderId := Upper(typed);
    if orderId !in db.orders {
      return OrderNotFound;
    }
    var order := db.orders[orderId];
    if order.userId != userId {
      return NotOwner;
    }
    if order.status != "completed" {
      return NotCompleted;
    }
    if amount > order.totalCost {
      return ExceedsTotal(order.totalCost);
    }
    if !WithinWindow(order.completedAt, now) {
      return TooLate;
    }
    if modalFails {
      return RequestFailed;
    }
    reply := ProofRequested(CustomId(orderId, amount));
    client.refundData := client.refundData[PendingKey(orderId, amount) := Pending(orderId, amount, reason, userId, order)];
  }

  /** Piece `i` of a split custom ID, or what JavaScript prints for a missing
      one. */
  function Piece(parts: seq<string>, i: nat): string {
    if i < |parts| then parts[i] else "undefined"
  }

  /** bot.js:96: `const [, , orderId, requestedAmount] = customId.split('_')`. */
  function ParseCustomId(customId: string): (string, string) {
    var parts := Split(customId, "_");
    (Piece(parts, 2), Piece(parts, 3))
  }

  /** For an order ID without '_', the submission reads back the order ID and
      the amount the request put in the custom ID, so it finds the remembered
      request under its key. */
  lemma CustomIdRoundTrip(orderId: string, amount: nat)
    requires '_' !in orderId
    ensures ParseCustomId(CustomId(orderId, amount)) == (orderId, NatToString(amount))
    ensures var (o, a) := ParseCustomId(CustomId(orderId, amount));
      o + "_" + a == PendingKey(orderId, amount)
  {
    var digits := NatToString(amount);
    assert '_' !in digits;
    var parts := ["refund", "proof", orderId, digits];
    assert Join(parts, "_") == CustomId(orderId, amount) by {
      assert Join(parts[3..], "_") == digits;
      assert Join(parts[2..], "_") == orderId + "_" + digits;
      assert Join(parts[1..], "_") == "proof_" + orderId + "_" + digits;
    }
    SplitJoin(parts, '_');
  }

  /** The answers to a proof submission. */
  datatype SubmitReply = DataNotFound | SubmitFailed | Submitted(refundId: string)

  /** bot.js:96-139: without a remembered request nothing happens; otherwise a
      'pending' refund row is inserted for the order ID read from the custom
      ID, and the entry is forgotten once the admin post and the reply are
      done. An insert that hits an existing refund ID throws, which keeps the
      entry and adds nothing. `postFails` says whether one of the steps after
      the insert throws (`interaction.guild` outside a guild, the channel send,
      the reply): the catch then keeps both the row and the entry. */
  function Submit(refunds: map<string, Refund>, pending: map<string, Pending>, customId: string,
                  proofLinks: string, refundId: string, now: int, postFails: bool)
    : (r: (SubmitReply, map<string, Refund>, map<string, Pending>))
    ensures var key := ParseCustomId(customId).0 + "_" + ParseCustomId(customId).1;
      && (r.0 == DataNotFound <==> key !in pending)
      && (r.0.Submitted? <==> key in pending && refundId !in refunds && !postFails)
      && (r.0.Submitted? ==> r.0.refundId == refundId && r.2 == pending - {key})
      && (!r.0.Submitted? ==> r.2 == pending)
      && (r.1 != refunds <==> key in pending && refundId !in refunds)
      && (r.1 != refunds ==> r.1.Keys == refunds.Keys + {refundId}
                             && r.1[refundId].orderId == ParseCustomId(customId).0
                             && r.1[refundId].status == "pending"
                             && forall id :: id in refunds ==> r.1[id] == refunds[id])
  {
    var (orderId, amount) := ParseCustomId(customId);
    var key := orderId + "_" + amount;
    if key !in pending then (DataNotFound, refunds, pending)
    else if refundId in refunds then (SubmitFailed, refunds, pending)
    else
      var data := pending[key];
      var rs := refunds[refundId := Refund(orderId, data.userId, data.requestedAmount, data.reason, proofLinks,
                                           "pending", None, None, now, None, None)];
      assert refundId in rs && refundId !in refunds;
      if postFails then (SubmitFailed, rs, pending)
      else (Submitted(refundId), rs, pending - {key})
  }

  /** The proof submission on the database and the client. The refund ID is
      drawn from `picks` once a remembered request is found; it is "" when
      none is. */
  method SubmitProof(db: Db, client: Client, customId: string, proofLinks: string, picks: seq<nat>, now: int,
                     postFails: bool)
    returns (reply: SubmitReply, refundId: string)
    requires |picks| == 10 && forall k :: 0 <= k < |picks| ==> picks[k] < |Alphabet|
    modifies db`refunds, client`refundData
    ensures reply != DataNotFound ==> Shaped(refundId, "REF-", 2) && Filled(refundId, "REF-", picks)
    ensures (reply, db.refunds, client.refundData) ==
      Submit(old(db.refunds), old(client.refundData), customId, proofLinks, refundId, now, postFails)
  {
    var parts := Split(customId, "_");
    var orderId, amount := Piece(parts, 2), Piece(parts, 3);
    var key := orderId + "_" + amount;
    if key !in client.refundData {
      return DataNotFound, "";
    }
    var data := client.refundData[key];
    refundId := GenerateRefundId(picks);
    var ok := db.AddRefund(refundId, orderId, data.userId, data.requestedAmount, data.reason, proofLinks, now);
    if !ok || postFails {
      return SubmitFailed, refundId;
    }
    reply := Submitted(refundId);
    client.refundData := client.refundData - {key};
  }

  /** An accepted /refund whose modal was shown, followed by its proof: the
      refund row holds the order, the user, the amount and the reason of the
      request and waits as 'pending'; the remembered request is gone when the
      admin post and the reply go through, and is kept when one of them
      throws. Order IDs hold no '_'. */
  lemma RequestThenSubmit(orders: map<string, Order>, refunds: map<string, Refund>, pending: map<string, Pending>,
                          typed: string, amount: nat, reason: string, userId: string, now: int,
                          proofLinks: string, refundId: string, later: int, postFails: bool)
    requires forall id :: id in orders ==> '_' !in id
    requires Request(orders, false, typed, amount, userId, now).ProofRequested?
    requires refundId !in refunds
    ensures var stored := Remembered(pending, orders, false, typed, amount, reason, userId, now, false);
      var customId := Request(orders, false, typed, amount, userId, now).customId;
      var (reply, rs, ps) := Submit(refunds, stored, customId, proofLinks, refundId, later, postFails);
      reply == (if postFails then SubmitFailed else Submitted(refundId))
      && rs == refunds[refundId := Refund(Upper(typed), userId, amount, reason, proofLinks, "pending", None, None, later, None, None)]
      && ps == if postFails then stored else pending - {PendingKey(Upper(typed), amount)}
  {
    CustomIdRoundTrip(Upper(typed), amount);
    var key := PendingKey(Upper(typed), amount);
    var stored := Remembered(pending, orders, false, typed, amount, reason, userId, now, false);
    assert stored - {key} == pending - {key};
  }

  /** A submission whose admin post throws keeps the remembered request, so
      submitting the same modal again inserts a second 'pending' refund for
      the same order. */
  lemma RetryAfterFailedPost(refunds: map<string, Refund>, pending: map<string, Pending>, customId: string,
                             proofLinks: string, first: string, second: string, now: int, later: int)
    requires ParseCustomId(customId).0 + "_" + ParseCustomId(customId).1 in pending
    requires first !in refunds && second !in refunds && first != second
    ensures var (r1, rs1, ps1) := Submit(refunds, pending, customId, proofLinks, first, now, true);
      var (r2, rs2, ps2) := Submit(rs1, ps1, customId, proofLinks, second, later, false);
      r1 == SubmitFailed && r2 == Submitted(second)
      && first in rs2 && second in rs2
      && rs2[first].orderId == rs2[second].orderId == ParseCustomId(customId).0
      && rs2[first].status == rs2[second].status == "pending"
  {
  }

  /** The kinds of interaction bot.js dispatches on. */
  datatype Kind = Autocomplete | ModalSubmit | Button | ChatInput | OtherKind

  /** The handlers of bot.js's interactionCreate listener. */
  datatype Handler =
    | AutocompleteHandler
    | ProofSubmission
    | MetricsButton
    | RefundButton
    | DecisionModal
    | CommandHandler
    | NoHandler

  /** bot.js:80-266. Every modal submission is dealt with, and returned from,
      by the first modal branch (bot.js:90-142), so the approve/decline modal
      branch at bot.js:191 is never reached. */
  function Route(kind: Kind, customId: string): (r: Handler)
    ensures r != DecisionModal
    ensures r == ProofSubmission <==> kind == ModalSubmit && StartsWith(customId, "refund_proof_")
  {
    if kind == Autocomplete then AutocompleteHandler
    else if kind == ModalSubmit then
      if StartsWith(customId, "refund_proof_") then ProofSubmission else NoHandler
    else if kind == Button then
      if StartsWith(customId, "metrics_") then MetricsButton
      else if StartsWith(customId, "approve_refund_") || StartsWith(customId, "decline_refund_") then RefundButton
      else NoHandler
    else if kind == ModalSubmit
            && (StartsWith(customId, "approve_refund_modal_") || StartsWith(customId, "decline_refund_modal_")) then
      DecisionModal
    else if kind == ChatInput then CommandHandler
    else NoHandler
  }

  /** A decision modal's custom ID, as the refund buttons create it
      (bot.js:155-190). */
  predicate DecisionModalId(customId: string) {
    StartsWith(customId, "approve_refund_modal_") || StartsWith(customId, "decline_refund_modal_")
  }

  /** No custom ID is both a decision modal's and a proof modal's. */
  lemma DecisionIdIsNotProofId(customId: string)
    ensures DecisionModalId(customId) ==> !StartsWith(customId, "refund_proof_")
  {
    if DecisionModalId(customId) {
      assert customId[0] == customId[..21][0];
    }
  }

  /** The listener with the decision modal tested inside the modal branch,
      before the branch returns: proof submissions are routed as before, and
      the admin's approve/decline modal reaches its handler. */
  function RouteCorrected(kind: Kind, customId: string): (r: Handler)
    ensures r == DecisionModal <==> kind == ModalSubmit && DecisionModalId(customId)
    ensures r == ProofSubmission <==> kind == ModalSubmit && StartsWith(customId, "refund_proof_")
  {
    DecisionIdIsNotProofId(customId);
    if kind == Autocomplete then AutocompleteHandler
    else if kind == ModalSubmit then
      if StartsWith(customId, "refund_proof_") then ProofSubmission
      else if DecisionModalId(customId) then DecisionModal
      else NoHandler
    else if kind == Button then
      if StartsWith(customId, "metrics_") then MetricsButton
      else if StartsWith(customId, "approve_refund_") || StartsWith(customId, "decline_refund_") then RefundButton
      else NoHandler
    else if kind == ChatInput then CommandHandler
    else NoHandler
  }

  /** The two listeners differ only on decision modals, which the listener as
      written drops. */
  lemma RouteDropsDecisions(kind: Kind, customId: string)
    ensures Route(kind, customId) != RouteCorrected(kind, customId)
            <==> kind == ModalSubmit && DecisionModalId(customId)
    ensures kind == ModalSubmit && DecisionModalId(customId) ==> Route(kind, customId) == NoHandler
  {
    DecisionIdIsNotProofId(customId);
  }

  /** What an admin submits in the decision modal; `amount` is the result of
      `parseInt` on the amount field, None for NaN. */
  datatype Decision = Approve(amount: Option<int>, notes: string) | Decline(reason: string)

  datatype DecisionReply = RefundNotFound | AlreadyProcessed | InvalidAmount | Approved(amount: int) | Declined

  /** `getTextInputValue('admin_reason') || 'Refund approved'` */
  function Notes(notes: string): (r: string)
    ensures r != "" && (notes != "" ==> r == notes)
  {
    if notes == "" then "Refund approved" else notes
  }

  /** bot.js:195-237: a missing refund and one that is no longer 'pending'
      change nothing; an approval needs a whole amount above 0, sets
      'approved' and credits exactly that amount to the requester; a decline
      sets 'declined' with amount 0 and credits nothing. */
  function Decide(refunds: map<string, Refund>, users: map<string, int>, refundId: string, d: Decision,
                  admin: string, now: int): (r: (DecisionReply, map<string, Refund>, map<string, int>))
    ensures r.0.Approved? || r.0 == Declined <==>
      refundId in refunds && refunds[refundId].status == "pending"
      && (d.Approve? ==> d.amount.Some? && d.amount.value > 0)
    ensures !r.0.Approved? ==> r.2 == users
    ensures !r.0.Approved? && r.0 != Declined ==> r.1 == refunds
  {
    if refundId !in refunds then (RefundNotFound, refunds, users)
    else
      var refund := refunds[refundId];
      if refund.status != "pending" then (AlreadyProcessed, refunds, users)
      else match d
        case Approve(amount, notes) =>
          if amount.None? || amount.value <= 0 then (InvalidAmount, refunds, users)
          else
            (Approved(amount.value),
             refunds[refundId := refund.(status := "approved", adminResponse := Some(Notes(notes)),
                                         approvedAmount := Some(amount.value), processedAt := Some(now),
                                         processedBy := Some(admin))],
             users[refund.userId := Balance(users, refund.userId) + amount.value])
        case Decline(reason) =>
          (Declined,
           refunds[refundId := refund.(status := "declined", adminResponse := Some(reason),
                                       approvedAmount := Some(0), processedAt := Some(now),
                                       processedBy := Some(admin))],
           users)
  }

  /** An approval credits exactly the approved amount to the requester and
      to no one else, and leaves the refund 'approved'. */
  lemma ApproveCredits(refunds: map<string, Refund>, users: map<string, int>, refundId: string,
                       amount: int, notes: string, admin: string, now: int)
    requires refundId in refunds && refunds[refundId].status == "pending" && amount > 0
    ensures var (reply, rs, us) := Decide(refunds, users, refundId, Approve(Some(amount), notes), admin, now);
      var requester := refunds[refundId].userId;
      reply == Approved(amount) && rs[refundId].status == "approved"
      && rs[refundId].approvedAmount == Some(amount)
      && Balance(us, requester) == Balance(users, requester) + amount
      && (forall u :: u != requester ==> Balance(us, u) == Balance(users, u))
      && rs - {refundId} == refunds - {refundId}
  {
    var (reply, rs, us) := Decide(refunds, users, refundId, Approve(Some(amount), notes), admin, now);
    assert rs - {refundId} == refunds - {refundId};
  }

  /** A refund is settled once: after an approval or a decline every further
      decision is refused and changes nothing. */
  lemma DecidedOnce(refunds: map<string, Refund>, users: map<string, int>, refundId: string, d: Decision,
                    admin: string, now: int, e: Decision, other: string, later: int)
    requires var r := Decide(refunds, users, refundId, d, admin, now); r.0.Approved? || r.0 == Declined
    ensures var (_, rs, us) := Decide(refunds, users, refundId, d, admin, now);
      Decide(rs, us, refundId, e, other, later) == (AlreadyProcessed, rs, us)
  {
  }

  /** The decision handler (bot.js:195-237) on the database. */
  method DecideRefund(db: Db, refundId: string, d: Decision, admin: string, now: int) returns (reply: DecisionReply)
    modifies db`refunds, db`users
    ensures (reply, db.refunds, db.users) == Decide(old(db.refunds), old(db.users), refundId, d, admin, now)
  {
    if refundId !in db.refunds {
      return RefundNotFound;
    }
    var refund := db.refunds[refundId];
    if refund.status != "pending" {
      return AlreadyProcessed;
    }
    match d
    case Approve(amount, notes) =>
      if amount.None? || amount.value <= 0 {
        return InvalidAmount;
      }
      db.UpdateRefundStatus(refundId, "approved", Notes(notes), amount.value, admin, now);
      db.AddCoins(refund.userId, amount.value);
      reply := Approved(amount.value);
    case Decline(reason) =>
      db.UpdateRefundStatus(refundId, "declined", reason, 0, admin, now);
      reply := Declined;
  }
}
