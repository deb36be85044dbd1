/**
 * The decisions of a lottery item's "Buy Ticket" button: the guards in
 * front of the purchase, the classification of a failed purchase, and the
 * ticket count read out of `getLotteryTicketsForItem`.
 */
module TicketPurchase {
  import opened LedgerTypes

  /** `t` occurs in `s` starting at index `i`. */
  predicate OccursAt(s: string, t: string, i: int)
  {
    0 <= i && i + |t| <= |s| && s[i..i + |t|] == t
  }

  /** JavaScript's `s.includes(t)`, scanning from the left. */
  function Includes(s: string, t: string): bool
    decreases |s|
  {
    if |t| > |s| then false
    else if s[..|t|] == t then true
    else Includes(s[1..], t)
  }

  /** The scan finds `t` exactly when `t` occurs somewhere in `s`. */
  lemma {:induction false} IncludesSpec(s: string, t: string)
    ensures Includes(s, t) <==> exists i :: OccursAt(s, t, i)
    decreases |s|
  {
    if |t| > |s| {
    } else if s[..|t|] == t {
      assert OccursAt(s, t, 0);
    } else {
      IncludesSpec(s[1..], t);
      if Includes(s[1..], t) {
        var j :| OccursAt(s[1..], t, j);
        assert s[1..][j..j + |t|] == s[j + 1..j + 1 + |t|];
        assert OccursAt(s, t, j + 1);
      } else {
        forall i | OccursAt(s, t, i) ensures false {
          assert i != 0;
          assert s[1..][i - 1..i - 1 + |t|] == s[i..i + |t|];
          assert OccursAt(s[1..], t, i - 1);
        }
      }
    }
  }

  /** The wallet's error code for "the user rejected the request". */
  const UserRejectedCode: int := 4001
  const InsufficientFundsText: string := "insufficient funds"

  /** The three messages a failed purchase can end in. */
  datatype BuyFailure =
    | TransactionRejected
    | InsufficientFunds
    | OtherFailure(message: string)

  /** The catch block of `buyTicket`: the code is checked before the message. */
  function ClassifyBuyError(e: TxError): (r: BuyFailure)
    ensures r == TransactionRejected <==> e.code == Some(UserRejectedCode)
    ensures r == InsufficientFunds <==>
      e.code != Some(UserRejectedCode) && exists i :: OccursAt(e.message, InsufficientFundsText, i)
    ensures r.OtherFailure? ==>
      r.message == e.message && !exists i :: OccursAt(e.message, InsufficientFundsText, i)
  {
    IncludesSpec(e.message, InsufficientFundsText);
    if e.code == Some(UserRejectedCode) then TransactionRejected
    else if Includes(e.message, InsufficientFundsText) then InsufficientFunds
    else OtherFailure(e.message)
  }

  /** What JavaScript throws for `tickets[0].length` when the reply is empty. */
  const MissingOwnersError: TxError := TxError(None, "Cannot read properties of undefined (reading 'length')")

  /** `tickets[0].length`, or the TypeError when there is no `tickets[0]`. */
  function TicketCountOf(tickets: seq<seq<Account>>): Call<nat>
  {
    if |tickets| > 0 then Returned(|tickets[0]|) else Threw(MissingOwnersError)
  }

  /** How a purchase ends, in place of its alerts. */
  datatype BuyOutcome =
    | NoSession                                // no contract or no account: nothing happens
    | AdminsCannotBuy
    | LotteryIsDrawn
    | SendFailed(failure: BuyFailure)          // the buyTicket send threw
    | Bought(count: nat)                       // sent, confirmed, owners re-read
    | BoughtButRecountFailed(failure: BuyFailure) // sent and confirmed, the re-read threw
  {
    /** Whether the purchase submitted its write-call. */
    predicate Sent()
    {
      SendFailed? || Bought? || BoughtButRecountFailed?
    }
  }

  /** `buyTicket`: session, then the mirrored admin list, then the mirrored
      draw flag, then the send and the re-read of the item's owners. */
  function BuyDecision(hasContract: bool, accounts: seq<Account>, admins: seq<Account>, isDrawn: bool,
                       send: SendResult, ownersRead: Call<seq<seq<Account>>>): (r: BuyOutcome)
    ensures r == NoSession <==> !hasContract || |accounts| == 0
    ensures r == AdminsCannotBuy <==> hasContract && |accounts| > 0 && accounts[0] in admins
    ensures r == LotteryIsDrawn <==> hasContract && |accounts| > 0 && accounts[0] !in admins && isDrawn
    ensures r.Sent() <==> hasContract && |accounts| > 0 && accounts[0] !in admins && !isDrawn
    ensures r.SendFailed? <==> r.Sent() && send.Failed?
    ensures r.SendFailed? ==> r.failure == ClassifyBuyError(send.error)
    ensures r.Bought? <==>
      r.Sent() && send == Confirmed && ownersRead.Returned? && |ownersRead.value| > 0
    ensures r.Bought? ==> r.count == |ownersRead.value[0]|
    ensures r.BoughtButRecountFailed? ==>
      r.failure == ClassifyBuyError(if ownersRead.Threw? then ownersRead.error else MissingOwnersError)
  {
    if !hasContract || |accounts| == 0 then NoSession
    else if accounts[0] in admins then AdminsCannotBuy
    else if isDrawn then LotteryIsDrawn
    else match send
      case Failed(e) => SendFailed(ClassifyBuyError(e))
      case Confirmed =>
        var count := match ownersRead
          case Returned(tickets) => TicketCountOf(tickets)
          case Threw(e) => Threw(e);
        match count
        case Returned(n) => Bought(n)
        case Threw(e) => BoughtButRecountFailed(ClassifyBuyError(e))
  }
}
