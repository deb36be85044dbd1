/**
 * The app's mirrored view of the lottery and the flows that change it:
 * session start, account switch, the polling reads, and the three
 * privileged actions.  Each flow is one sequential step; the ledger's
 * replies are its parameters.
 */
module LotteryApp {
  import opened LedgerTypes
  import Session
  import WinnerEvaluation
  import opened AdminGuards

  /** The three replies of `winners(0)`, `winners(1)`, `winners(2)`. */
  type WinnerSlots = (Account, Account, Account)

  function SlotsAsSeq(w: WinnerSlots): seq<Account>
  {
    [w.0, w.1, w.2]
  }

  class App {
    var accounts: seq<Account>
    var hasContract: bool
    var connectionStatus: string
    var contractAdmins: seq<Account>
    var winners: seq<Account>
    var isDrawn: bool
    var isLoading: bool
    /** The pooled amount in wei (the app shows it converted to ether). */
    var totalAmount: nat
    /** Whether `init` got as far as registering the `accountsChanged`
        listener; a reload starts a page without one. */
    var listening: bool

    /** The values the state starts with on every page load. */
    predicate IsInitial()
      reads this
    {
      && accounts == []
      && !hasContract
      && connectionStatus == Session.NoWalletStatus
      && contractAdmins == []
      && winners == []
      && !isDrawn
      && !isLoading
      && totalAmount == 0
      && !listening
    }

    constructor ()
      ensures IsInitial()
    {
      accounts, hasContract, connectionStatus := [], false, Session.NoWalletStatus;
      contractAdmins, winners := [], [];
      isDrawn, isLoading, totalAmount, listening := false, false, 0, false;
    }

    /** The app's part of a page reload: its fields return to their initial
        values (the item cards are reset by `LotteryPage.ResetCards`). */
    method Reload()
      modifies this
      ensures IsInitial()
    {
      accounts, hasContract, connectionStatus := [], false, Session.NoWalletStatus;
      contractAdmins, winners := [], [];
      isDrawn, isLoading, totalAmount, listening := false, false, 0, false;
    }

    /** `init`: load web3 and the contract and read the accounts (`session`;
        a throw there changes nothing), then read the admin list.  A throw
        there jumps to the catch block: the list stays as it was and the
        `accountsChanged` listener is never registered. */
    method Init(session: Call<seq<Account>>, adminsRead: Call<seq<Account>>)
      modifies this`accounts, this`hasContract, this`connectionStatus, this`contractAdmins, this`listening
      ensures session.Threw? ==>
        && accounts == old(accounts) && hasContract == old(hasContract)
        && connectionStatus == old(connectionStatus) && contractAdmins == old(contractAdmins)
      ensures session.Returned? ==>
        && accounts == session.value
        && hasContract
        && connectionStatus == Session.StatusAfterInit(old(connectionStatus), session.value)
        && contractAdmins == (if adminsRead.Returned? then adminsRead.value else old(contractAdmins))
      ensures listening <==> old(listening) || (session.Returned? && adminsRead.Returned?)
    {
      match session {
        case Threw(_) =>
        case Returned(fetched) =>
          accounts := fetched;
          hasContract := true;
          if |fetched| > 0 {
            connectionStatus := Session.ConnectedPrefix + fetched[0];
          }
          if adminsRead.Returned? {
            contractAdmins := adminsRead.value;
            listening := true;
          }
      }
    }

    /** A wallet account switch.  Only a registered `accountsChanged`
        handler reacts: it sets the accounts and the status it shows, then
        reloads the page.  Without the listener nothing changes, and the
        app goes on acting for the old accounts. */
    method AccountsChanged(newAccounts: seq<Account>) returns (shown: Option<string>)
      modifies this
      ensures old(listening) ==> shown == Some(Session.StatusFor(newAccounts)) && IsInitial()
      ensures !old(listening) ==> shown == None && unchanged(this)
    {
      if !listening {
        return None;
      }
      accounts := newAccounts;
      if |newAccounts| > 0 {
        connectionStatus := Session.ConnectedPrefix + newAccounts[0];
      } else {
        connectionStatus := Session.NoWalletStatus;
      }
      shown := Some(connectionStatus);
      Reload();
    }

    /** The polling read of `isDrawn()`: it copies the ledger's flag, which
        may be false again after a reset made elsewhere. */
    method FetchIsDrawn(read: Call<bool>)
      modifies this`isDrawn
      ensures isDrawn == if hasContract && read.Returned? then read.value else old(isDrawn)
    {
      if hasContract && read.Returned? {
        isDrawn := read.value;
      }
    }

    /** `fetchTotalAmount`: reads `totalAmount()` when a contract is loaded. */
    method FetchTotalAmount(read: Call<nat>)
      modifies this`totalAmount
      ensures totalAmount == if hasContract && read.Returned? then read.value else old(totalAmount)
    {
      if hasContract && read.Returned? {
        totalAmount := read.value;
      }
    }

    /** `fetchWinners`: reads all three slots whenever a contract and an
        account exist, whether or not the draw has happened. */
    method FetchWinners(read: Call<WinnerSlots>)
      modifies this`winners
      ensures winners == if hasContract && |accounts| > 0 && read.Returned? then SlotsAsSeq(read.value)
                         else old(winners)
      ensures hasContract && |accounts| > 0 && read.Returned? ==> |winners| == 3
    {
      if hasContract && |accounts| > 0 {
        match read {
          case Returned(slots) => winners := SlotsAsSeq(slots);
          case Threw(_) =>
        }
      }
    }

    /** `checkIfWinner`, evaluated on the mirrored flag, admin list and slots. */
    method CheckIfWinner() returns (outcome: WinnerEvaluation.WinnerOutcome)
      ensures outcome == WinnerEvaluation.Evaluate(isDrawn, contractAdmins, accounts, winners)
      ensures !isDrawn ==> outcome == WinnerEvaluation.NotDrawnYet
      ensures isDrawn && |accounts| > 0 && accounts[0] in contractAdmins ==> outcome == WinnerEvaluation.AdminCannotWin
    {
      outcome := WinnerEvaluation.Evaluate(isDrawn, contractAdmins, accounts, winners);
    }

    /** `drawWinners`: with the receipt handler's re-read of the three slots
        (`winnersRead`) run before the `finally` block. */
    method DrawWinners(adminReply: Call<bool>, send: SendResult, winnersRead: Call<WinnerSlots>)
      returns (outcome: AdminOutcome, sent: Option<LedgerWrite>)
      modifies this`isLoading, this`winners, this`isDrawn
      ensures outcome == DrawDecision(hasContract, accounts, adminReply, old(isDrawn), send)
      ensures sent == if outcome.Sent() then Some(DrawWinnersTx(accounts[0])) else None
      ensures isLoading <==> outcome == Skipped
      ensures outcome == Done && winnersRead.Returned? ==>
        winners == SlotsAsSeq(winnersRead.value) && isDrawn
      ensures !(outcome == Done && winnersRead.Returned?) ==>
        winners == old(winners) && isDrawn == old(isDrawn)
    {
      isLoading := true;
      sent := None;
      if hasContract && |accounts| > 0 {
        match adminReply {
          case Threw(e) =>
            outcome := ReadFailed(e);
          case Returned(isAdmin) =>
            if !isAdmin {
              outcome := NotAdmin;
            } else if isDrawn {
              outcome := AlreadyDrawn;
            } else {
              sent := Some(DrawWinnersTx(accounts[0]));
              match send {
                case Failed(e) =>
                  outcome := SendFailed(e);
                case Confirmed =>
                  if winnersRead.Returned? {
                    winners := SlotsAsSeq(winnersRead.value);
                    isDrawn := true;
                  }
                  outcome := Done;
              }
            }
        }
        isLoading := false;
      } else {
        outcome := Skipped;
      }
    }

    /** `resetLottery`: a missing contract returns before the `try`, so the
        loading flag stays set; a confirmed reset reloads the page. */
    method ResetLottery(adminReply: Call<bool>, send: SendResult)
      returns (outcome: AdminOutcome, sent: Option<LedgerWrite>)
      modifies this
      ensures outcome == ResetDecision(old(hasContract), adminReply, send)
      ensures sent == if outcome.Sent() then Some(ResetLotteryTx(FirstAccount(old(accounts)))) else None
      ensures outcome == Done ==> IsInitial()
      ensures outcome != Done ==>
        && isLoading == (outcome == Skipped)
        && accounts == old(accounts) && hasContract == old(hasContract)
        && connectionStatus == old(connectionStatus) && contractAdmins == old(contractAdmins)
        && winners == old(winners) && isDrawn == old(isDrawn) && totalAmount == old(totalAmount)
        && listening == old(listening)
    {
      isLoading := true;
      sent := None;
      if !hasContract {
        return Skipped, None;
      }
      match adminReply {
        case Threw(e) =>
          outcome := ReadFailed(e);
        case Returned(isAdmin) =>
          if !isAdmin {
            outcome := NotAdmin;
          } else {
            sent := Some(ResetLotteryTx(FirstAccount(accounts)));
            match send {
              case Failed(e) =>
                outcome := SendFailed(e);
              case Confirmed =>
                outcome := Done;
                Reload();
            }
          }
      }
      isLoading := false;
    }

    /** `withdrawFunds`: the `finally` block clears the loading flag and
        refreshes the total on every path (`totalRead` is that read's reply). */
    method WithdrawFunds(adminReply: Call<bool>, send: SendResult, totalRead: Call<nat>)
      returns (outcome: AdminOutcome, sent: Option<LedgerWrite>)
      modifies this`isLoading, this`totalAmount
      ensures outcome == WithdrawDecision(hasContract, accounts, adminReply, send)
      ensures sent == if outcome.Sent() then Some(WithdrawTx(accounts[0])) else None
      ensures !isLoading
      ensures totalAmount == if hasContract && totalRead.Returned? then totalRead.value else old(totalAmount)
    {
      isLoading := true;
      sent := None;
      if hasContract && |accounts| > 0 {
        match adminReply {
          case Threw(e) =>
            outcome := ReadFailed(e);
          case Returned(isAdmin) =>
            if !isAdmin {
              outcome := NotAdmin;
            } else {
              sent := Some(WithdrawTx(accounts[0]));
              match send {
                case Failed(e) => outcome := SendFailed(e);
                case Confirmed => outcome := Done;
              }
            }
        }
      } else {
        outcome := Skipped;
      }
      isLoading := false;
      FetchTotalAmount(totalRead);
    }
  }

  /** Two draws in a row from the same state: the second submits no
      `drawWinners()` once the first mirrored the draw; but when the first
      send failed, or was confirmed while its slot re-read threw, the flag
      stays false until the polling read of `isDrawn()` copies the ledger's
      flag, and an admin's click before that read returns sends
      `drawWinners()` again. */
  method DrawTwice(app: App, firstAdmin: Call<bool>, firstSend: SendResult, firstSlots: Call<WinnerSlots>,
                   secondAdmin: Call<bool>, secondSend: SendResult, secondSlots: Call<WinnerSlots>)
    returns (first: Option<LedgerWrite>, second: Option<LedgerWrite>)
    modifies app
    ensures old(app.isDrawn) ==> first == None && second == None
    ensures first.Some? && firstSlots.Returned? && firstSend == Confirmed ==> second == None
    ensures first.Some? && !(firstSend == Confirmed && firstSlots.Returned?) && secondAdmin == Returned(true) ==>
      second == first
  {
    var o1, o2;
    o1, first := app.DrawWinners(firstAdmin, firstSend, firstSlots);
    o2, second := app.DrawWinners(secondAdmin, secondSend, secondSlots);
  }
}
