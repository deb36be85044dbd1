/**
 * The decisions in front of the three privileged actions of the app (draw
 * winners, reset the lottery, withdraw funds).  Each asks the contract
 * `admins(accounts[0])` afresh; `adminReply` is that read's reply and `send`
 * the fate of the write-call, both supplied by the ledger.
 */
module AdminGuards {
  import opened LedgerTypes

  /** How a privileged action ends, in place of its alerts and console output. */
  datatype AdminOutcome =
    | Skipped                    // no contract (or, for draw and withdraw, no account): nothing is asked
    | ReadFailed(error: TxError) // the admins(...) read threw and was caught
    | NotAdmin                   // the contract says the account is no admin
    | AlreadyDrawn               // draw only: the mirrored flag says the draw happened
    | SendFailed(error: TxError) // the write-call was submitted and threw
    | Done                       // the write-call was submitted and confirmed
  {
    /** Whether the action submitted its write-call. */
    predicate Sent()
    {
      SendFailed? || Done?
    }
  }

  /** `drawWinners`: session check, then the admin read, then the drawn flag. */
  function DrawDecision(hasContract: bool, accounts: seq<Account>, adminReply: Call<bool>, isDrawn: bool,
                        send: SendResult): (r: AdminOutcome)
    ensures r == Skipped <==> !hasContract || |accounts| == 0
    ensures r.Sent() <==> hasContract && |accounts| > 0 && adminReply == Returned(true) && !isDrawn
    ensures r == NotAdmin <==> hasContract && |accounts| > 0 && adminReply == Returned(false)
    ensures r == AlreadyDrawn <==> hasContract && |accounts| > 0 && adminReply == Returned(true) && isDrawn
    ensures r == Done ==> send == Confirmed
    ensures r.ReadFailed? ==> adminReply.Threw? && r.error == adminReply.error
    ensures r.SendFailed? ==> send.Failed? && r.error == send.error
  {
    if !hasContract || |accounts| == 0 then Skipped
    else match adminReply
      case Threw(e) => ReadFailed(e)
      case Returned(isAdmin) =>
        if !isAdmin then NotAdmin
        else if isDrawn then AlreadyDrawn
        else match send
          case Confirmed => Done
          case Failed(e) => SendFailed(e)
  }

  /** `resetLottery`: only the contract is checked before the admin read; the
      read is made for `accounts[0]` even when there is no account. */
  function ResetDecision(hasContract: bool, adminReply: Call<bool>, send: SendResult): (r: AdminOutcome)
    ensures r == Skipped <==> !hasContract
    ensures r.Sent() <==> hasContract && adminReply == Returned(true)
    ensures r == NotAdmin <==> hasContract && adminReply == Returned(false)
    ensures r != AlreadyDrawn
    ensures r == Done <==> hasContract && adminReply == Returned(true) && send == Confirmed
    ensures r.ReadFailed? ==> adminReply.Threw? && r.error == adminReply.error
    ensures r.SendFailed? ==> send.Failed? && r.error == send.error
  {
    if !hasContract then Skipped
    else match adminReply
      case Threw(e) => ReadFailed(e)
      case Returned(isAdmin) =>
        if !isAdmin then NotAdmin
        else match send
          case Confirmed => Done
          case Failed(e) => SendFailed(e)
  }

  /** `withdrawFunds`: session check, then the admin read, then the send. */
  function WithdrawDecision(hasContract: bool, accounts: seq<Account>, adminReply: Call<bool>,
                            send: SendResult): (r: AdminOutcome)
    ensures r == Skipped <==> !hasContract || |accounts| == 0
    ensures r.Sent() <==> hasContract && |accounts| > 0 && adminReply == Returned(true)
    ensures r == NotAdmin <==> hasContract && |accounts| > 0 && adminReply == Returned(false)
    ensures r != AlreadyDrawn
    ensures r == Done ==> send == Confirmed
    ensures r.ReadFailed? ==> adminReply.Threw? && r.error == adminReply.error
    ensures r.SendFailed? ==> send.Failed? && r.error == send.error
  {
    if !hasContract || |accounts| == 0 then Skipped
    else match adminReply
      case Threw(e) => ReadFailed(e)
      case Returned(isAdmin) =>
        if !isAdmin then NotAdmin
        else match send
          case Confirmed => Done
          case Failed(e) => SendFailed(e)
  }
}
