/**
 * One lottery item card: its mirrored ticket count, its loading flag, and
 * the purchase flow.  The item's props (contract, accounts, admin list,
 * draw flag, the total refresh) are those of the app that renders it.
 */
module LotteryItemComponent {
  import opened LedgerTypes
  import opened TicketPurchase
  import LotteryApp

  class LotteryItem {
    const itemIndex: nat
    var ticketCount: nat
    var isLoadingTicket: bool

    constructor (itemIndex: nat)
      ensures this.itemIndex == itemIndex && ticketCount == 0 && !isLoadingTicket
    {
      this.itemIndex := itemIndex;
      ticketCount := 0;
      isLoadingTicket := false;
    }

    /** `fetchTicketCount`: the count is the length of the owners list the
        ledger returns; an empty reply throws in `tickets[0].length` and,
        like a failed read, leaves the count as it was. */
    method FetchTicketCount(app: LotteryApp.App, ownersRead: Call<seq<seq<Account>>>)
      modifies this`ticketCount
      ensures ticketCount ==
        if app.hasContract && |app.accounts| > 0 && ownersRead.Returned? && |ownersRead.value| > 0
        then |ownersRead.value[0]|
        else old(ticketCount)
    {
      if app.hasContract && |app.accounts| > 0 {
        match ownersRead {
          case Threw(_) =>
          case Returned(tickets) =>
            var count := TicketCountOf(tickets);
            if count.Returned? {
              ticketCount := count.value;
            }
        }
      }
    }

    /** `buyTicket`: the guards on the mirrored admin list and draw flag, the
        send carrying the ticket price, then the re-read of the owners and the
        refresh of the app's total (`totalRead`). */
    method BuyTicket(app: LotteryApp.App, send: SendResult, ownersRead: Call<seq<seq<Account>>>,
                     totalRead: Call<nat>)
      returns (outcome: BuyOutcome, sent: Option<LedgerWrite>)
      modifies this`ticketCount, this`isLoadingTicket, app`totalAmount
      ensures outcome == BuyDecision(app.hasContract, app.accounts, app.contractAdmins, app.isDrawn,
                                     send, ownersRead)
      ensures sent == if outcome.Sent() then Some(BuyTicketTx(itemIndex, app.accounts[0], TicketPriceWei))
                      else None
      ensures ticketCount == if outcome.Bought? then outcome.count else old(ticketCount)
      ensures isLoadingTicket <==> outcome == NoSession
      ensures app.totalAmount == if outcome.Bought? && totalRead.Returned? then totalRead.value
                                 else old(app.totalAmount)
    {
      isLoadingTicket := true;
      sent := None;
      if app.hasContract && |app.accounts| > 0 {
        var from := app.accounts[0];
        if from in app.contractAdmins {
          outcome := AdminsCannotBuy;
        } else if app.isDrawn {
          outcome := LotteryIsDrawn;
        } else {
          sent := Some(BuyTicketTx(itemIndex, from, TicketPriceWei));
          match send {
            case Failed(e) =>
              outcome := SendFailed(ClassifyBuyError(e));
            case Confirmed =>
              var count := if ownersRead.Returned? then TicketCountOf(ownersRead.value) else Threw(ownersRead.error);
              match count {
                case Threw(e) =>
                  outcome := BoughtButRecountFailed(ClassifyBuyError(e));
                case Returned(n) =>
                  ticketCount := n;
                  outcome := Bought(n);
                  app.FetchTotalAmount(totalRead);
              }
          }
        }
        isLoadingTicket := false;
      } else {
        outcome := NoSession;
      }
    }
  }
}
