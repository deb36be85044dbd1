/**
 * The page as a whole: the app and the item cards it renders.  A page
 * reload remounts every component, so the item cards lose their ticket
 * count and loading flag along with the app's state.
 */
module LotteryPage {
  import opened LedgerTypes
  import opened AdminGuards
  import LotteryApp
  import LotteryItemComponent
  import Session

  /** The item cards' part of a page reload: every card returns to ticket
      count 0 and not loading. */
  method ResetCards(items: seq<LotteryItemComponent.LotteryItem>)
    modifies items
    ensures forall i :: 0 <= i < |items| ==> items[i].ticketCount == 0 && !items[i].isLoadingTicket
  {
    forall i | 0 <= i < |items| {
      items[i].ticketCount := 0;
    }
    forall i | 0 <= i < |items| {
      items[i].isLoadingTicket := false;
    }
  }

  /** A wallet account switch on the whole page: when the listener is
      registered, the handler's reload of the app also resets every card;
      without it nothing on the page changes. */
  method AccountsChangedOnPage(app: LotteryApp.App, items: seq<LotteryItemComponent.LotteryItem>,
                               newAccounts: seq<Account>) returns (shown: Option<string>)
    modifies app, items
    ensures old(app.listening) ==>
      && shown == Some(Session.StatusFor(newAccounts))
      && app.IsInitial()
      && forall i :: 0 <= i < |items| ==> items[i].ticketCount == 0 && !items[i].isLoadingTicket
    ensures !old(app.listening) ==> shown == None && unchanged(app) && unchanged(items)
  {
    shown := app.AccountsChanged(newAccounts);
    if shown.Some? {
      ResetCards(items);
    }
  }

  /** `resetLottery` on the whole page: a confirmed reset's reload also
      resets every card; any other outcome leaves the cards as they were. */
  method ResetLotteryOnPage(app: LotteryApp.App, items: seq<LotteryItemComponent.LotteryItem>,
                            adminReply: Call<bool>, send: SendResult)
    returns (outcome: AdminOutcome, sent: Option<LedgerWrite>)
    modifies app, items
    ensures outcome == ResetDecision(old(app.hasContract), adminReply, send)
    ensures sent == if outcome.Sent() then Some(ResetLotteryTx(FirstAccount(old(app.accounts)))) else None
    ensures outcome == Done ==>
      && app.IsInitial()
      && forall i :: 0 <= i < |items| ==> items[i].ticketCount == 0 && !items[i].isLoadingTicket
    ensures outcome != Done ==>
      && app.isLoading == (outcome == Skipped)
      && app.accounts == old(app.accounts) && app.hasContract == old(app.hasContract)
      && app.connectionStatus == old(app.connectionStatus) && app.contractAdmins == old(app.contractAdmins)
      && app.winners == old(app.winners) && app.isDrawn == old(app.isDrawn)
      && app.totalAmount == old(app.totalAmount) && app.listening == old(app.listening)
      && unchanged(items)
  {
    outcome, sent := app.ResetLottery(adminReply, send);
    if outcome == Done {
      ResetCards(items);
    }
  }
}
