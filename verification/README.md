# Blockchain lottery front end — Dafny model

This project models the decision logic of a React front end for a three-item
raffle whose real state lives in an Ethereum contract. The app mirrors part of
that state: the account list, whether a contract is loaded, the admin list, the
draw flag, the three winner slots, the loading flag of the admin buttons, and the
pooled total. Each item card mirrors its ticket count and its own loading flag.
On that view the app decides four things. It tells users whether they won. It
guards ticket purchases and the three admin actions (draw, reset, withdraw). It
sorts a failed purchase into rejected, insufficient funds or other. It derives
the connection-status line.

## How the model is built

- Every call into web3 or into the contract is a parameter of the step that
  makes it. `Call<T>` is a read that returned a value or threw. `SendResult` is
  a write-call that was confirmed or threw. The ledger's own rules are not
  modelled.
- An `alert` becomes a returned outcome: `WinnerOutcome`, `AdminOutcome` or
  `BuyOutcome`. Each flow that can submit a write-call also returns
  `sent: Option<LedgerWrite>`. It holds the write that was submitted, with its
  sender and, for a purchase, its value of 10^15 wei (0.001 ether). It is `None`
  when nothing was sent.
- The guards are pure decision functions (`AdminGuards`,
  `TicketPurchase.BuyDecision`, `WinnerEvaluation.Evaluate`). The contracts of
  the first two, and the lemma `WinnerEvaluation.EvaluateOutcomes` about the
  third, state the order in which the checks run. The imperative methods of the
  classes `App` and `LotteryItem` follow the source step by step, with early
  returns and the `finally` blocks. Each of these class methods has an
  `ensures` that ties its outcome to the matching decision function and states
  the new value of every field it may change. So do the page-level methods of
  `LotteryPage`, for the app and the item cards. The module-level
  `LotteryApp.DrawTwice` is different: it states only what its two draws send.
- JavaScript's `accounts[0]` on an empty list is `undefined`. It is modelled as
  `FirstAccount(accounts) == None`, which matches no winner slot and no admin.
- The contract's interface is not part of this model. Following the comment at
  src/LotteryItem.js:14, the model assumes that `getLotteryTicketsForItem`
  returns a tuple whose first part is the list of ticket owners, and the count
  is the length of that list. If the reply is empty, `tickets[0].length` throws
  a TypeError. In `buyTicket` that error reaches the catch block and is sorted
  like any other error. In `fetchTicketCount` it is an unhandled rejection and
  the count stays as it was.

### Behaviour of the code the model keeps

- Draw, reset and withdraw ask the contract `admins(accounts[0])` on every call
  (src/App.js:101, 168, 191). Only buying and winner evaluation use the mirrored
  admin list.
- The winner slots are read whenever a contract and an account exist, whether or
  not the draw has happened (src/App.js:71-86).
- There is no in-flight guard. The only protection against a second call is a
  disabled button (src/App.js:222-229, src/LotteryItem.js:66), so no method
  checks `isLoading` or `isLoadingTicket`.
- A confirmed reset (src/App.js:177) reloads the page. So does an account
  switch (src/App.js:61), but only after an `init` that reached the listener
  registration at src/App.js:54. The reload remounts the app and the three
  item cards. The app's fields return to their initial values (`App.Reload`),
  and so do every card's `ticketCount` and `isLoadingTicket`
  (`LotteryPage.ResetCards`).
- The `accountsChanged` listener is registered inside `init`'s `try`, after
  the `getAdmins()` read (src/App.js:50-54). If that read throws, or anything
  before it does, no listener is registered (`App.listening` stays false). A
  later wallet switch then changes nothing: the accounts, the status line and
  the page stay as they were, and the app keeps acting for the old
  `accounts[0]` (`App.AccountsChanged`).
- Inside the app's own flows, only the draw receipt handler sets `isDrawn`, and
  only to true. The polling effect (src/App.js:23-31) copies the contract's
  `isDrawn()`, though. After a reset made from another browser, that copy sets
  the flag back to false (`App.FetchIsDrawn`).
- When a draw's send fails, `isDrawn` stays false, and so does the ledger's
  flag, so an admin's next click sends `drawWinners()` again. When the send is
  confirmed but the receipt handler's re-read of the slots throws
  (src/App.js:115-123), `isDrawn` stays false only until the polling read of
  `isDrawn()` (src/App.js:23-31) copies the ledger's flag, which is then true.
  A click before that read returns, or after it threw, sends `drawWinners()`
  again (`LotteryApp.DrawTwice`).
- `isLoading` stays true when `drawWinners` has no contract or no account, and
  when `resetLottery` has no contract. Both return before their `try`. Likewise
  `isLoadingTicket` stays true when `buyTicket` has no contract or no account.

## Model

| member | source | states |
|---|---|---|
| `Session.StatusFor` | src/App.js:54-60 | the account-switch status is "No wallet connected" exactly for an empty list, and otherwise "Connected with: " followed by the first account |
| `Session.StatusAfterInit` | src/App.js:45-47 | `init` leaves the status unchanged for an empty list; starting from the initial status, it agrees with `StatusFor` |
| `Session.StatusRoundTrip` | src/App.js:56-60 | the account read back out of the status is exactly the first account, or none for an empty list |
| `WinnerEvaluation.MatchingIndicesExact` | src/App.js:147-149 | the map/filter over the first n slots keeps exactly the slots that equal `accounts[0]`, in strictly ascending order |
| `WinnerEvaluation.WinningIndicesExact` | src/App.js:147-149 | over all slots: exactly the matching indices, ascending; the list is empty exactly when no slot holds the account |
| `WinnerEvaluation.WinningItems` | src/App.js:147-150 | the names are those of exactly the slots that hold `accounts[0]`, one per slot, in ascending slot order, where 0 is 'IPhone 15', 1 is 'Tesla Model S' and any other index is 'Macbook Pro'; the list is empty exactly when no slot holds the account |
| `WinnerEvaluation.EvaluateOutcomes` | src/App.js:135-157 | "not drawn" exactly when the flag is false, admin or not; "admin cannot win" exactly when drawn and the first account is in the mirrored admin list; congratulations exactly when some slot holds the account, listing exactly those slots' names in ascending order; "did not win" exactly when none does |
| `AdminGuards.DrawDecision` | src/App.js:96-133 | no contract or no account does nothing; the `drawWinners()` write is sent exactly when the admins read returned true and the flag is not yet drawn; a non-admin is refused whether or not the draw has happened (the admin check comes first); "done" only for a confirmed send; failed reads and sends carry their error |
| `AdminGuards.ResetDecision` | src/App.js:159-184 | only a missing contract is checked before the admins read; the `resetLottery()` write is sent exactly when that read returned true; "done" exactly when it was also confirmed |
| `AdminGuards.WithdrawDecision` | src/App.js:186-206 | no contract or no account does nothing; the `withdraw()` write is sent exactly when the admins read returned true; a non-admin is refused; "done" only for a confirmed send |
| `TicketPurchase.IncludesSpec` | src/LotteryItem.js:49 | the left-to-right scan of `message.includes(text)` is true exactly when the text occurs at some index of the message |
| `TicketPurchase.ClassifyBuyError` | src/LotteryItem.js:45-54 | code 4001 gives "rejected", whatever the message says; otherwise a message containing "insufficient funds" gives the insufficient-funds outcome; anything else gives the generic failure carrying the message |
| `TicketPurchase.BuyDecision` | src/LotteryItem.js:20-59 | no contract or no account does nothing; an admin is refused, even when the lottery is drawn; a non-admin is refused once drawn; the send happens exactly when neither refusal applies; a failed send is classified; "bought" exactly for a confirmed send whose owners re-read returned a tuple, with the count equal to the length of its first part; a confirmed send whose re-read threw, or returned no first part, carries that error's classification |
| `LotteryApp.App.constructor` | src/App.js:12-19 | the app starts with no accounts and no contract, "No wallet connected", empty admin and winner lists, not drawn, not loading, total 0, no `accountsChanged` listener |
| `LotteryApp.App.Reload` | src/App.js:61 | the app's part of a page reload: every field of the app returns to its initial value, and the new page has no listener yet |
| `LotteryApp.App.Init` | src/App.js:36-69 | a failed load changes nothing; otherwise the accounts and the contract are set, the status follows `StatusAfterInit`, and the admin list is replaced only if the `getAdmins()` read returned; the `accountsChanged` listener is registered exactly when both the load and the `getAdmins()` read returned (once registered, it stays) |
| `LotteryApp.App.AccountsChanged` | src/App.js:54-62 | with the listener registered, the handler shows the status for the new accounts, then the reload brings the app's fields back to their initial values; without it, nothing is shown and no field changes |
| `LotteryApp.App.FetchIsDrawn` | src/App.js:23-31 | with a contract, the flag becomes the ledger's reply, which may be false; otherwise it is unchanged |
| `LotteryApp.App.FetchTotalAmount` | src/App.js:88-94 | with a contract and a reply, the total becomes the ledger's `totalAmount()`; otherwise it is unchanged |
| `LotteryApp.App.FetchWinners` | src/App.js:71-86 | with a contract and an account, all three slots are re-read regardless of the draw flag; a failed read leaves the slots unchanged |
| `LotteryApp.App.CheckIfWinner` | src/App.js:135-157 | winner evaluation uses the mirrored draw flag, admin list and slots, with no fresh admin read; "not drawn" whenever the flag is false |
| `LotteryApp.App.DrawWinners` | src/App.js:96-133 | the outcome is `DrawDecision` of the mirrored state; the `drawWinners()` write from `accounts[0]` is sent exactly in the sending outcomes; `isLoading` stays true only when nothing was attempted; the slots and `isDrawn = true` are set only after a confirmed send whose slot re-read returned; otherwise slots and flag are unchanged |
| `LotteryApp.App.ResetLottery` | src/App.js:159-184 | the outcome is `ResetDecision`; the `resetLottery()` write from `accounts[0]` (possibly undefined) is sent exactly in the sending outcomes; a confirmed reset returns the app's fields to their initial values; otherwise only `isLoading` changes, and it stays true when the contract is missing |
| `LotteryApp.App.WithdrawFunds` | src/App.js:186-206 | the outcome is `WithdrawDecision`; the `withdraw()` write is sent exactly in the sending outcomes; on every path, the non-admin return and a failed send included, `isLoading` ends false and the total is refreshed |
| `LotteryApp.DrawTwice` | src/App.js:107-123 | two draws in a row: a draw already mirrored before the first means neither sends; after a confirmed first draw whose slots were read, the second sends nothing; after a first draw that was sent but failed, or whose slot re-read threw, an admin's second draw with no polling read in between sends `drawWinners()` again |
| `LotteryPage.ResetCards` | src/App.js:61 | the item cards' part of a page reload: every card returns to ticket count 0 and not loading |
| `LotteryPage.AccountsChangedOnPage` | src/App.js:54-62 | with the listener registered, an account switch shows the status for the new accounts, then the reload resets the app and every item card; without it, nothing is shown and neither the app nor any card changes |
| `LotteryPage.ResetLotteryOnPage` | src/App.js:159-184 | the outcome and the write are those of `App.ResetLottery`; a confirmed reset also resets the app and every item card; any other outcome changes only the app's `isLoading`, which stays true exactly for a missing contract, and leaves the cards unchanged |
| `LotteryItemComponent.LotteryItem.constructor` | src/LotteryItem.js:6-8 | an item card starts with ticket count 0 and not loading |
| `LotteryItemComponent.LotteryItem.FetchTicketCount` | src/LotteryItem.js:10-18 | with a contract and an account, the count becomes the length of the first owners list the ledger returns; a failed or empty reply leaves it unchanged |
| `LotteryItemComponent.LotteryItem.BuyTicket` | src/LotteryItem.js:20-59 | the outcome is `BuyDecision` of the app's mirrored state; the `buyTicket(itemIndex)` write from `accounts[0]` with 10^15 wei is sent exactly in the sending outcomes; the count changes only to the re-read value after a confirmed send, and is never incremented locally; the total is refreshed only on that path; `isLoadingTicket` stays true only when there is no contract or no account |

## Left out

- Rendering, CSS and images (src/App.js:208-244, src/LotteryItem.js:61-70): presentation only.
- The `./web3` module (`loadWeb3`, `loadContract`, `getWeb3`, `getContract`) is not part of this model. Loading web3, loading the contract and reading the accounts are one oracle reply of `App.Init`, and a loaded contract is assumed non-null.
- The contract's own behaviour (`admins`, `getAdmins`, `isDrawn`, `winners`, `totalAmount`, `getLotteryTicketsForItem`, and the write-calls): every reply is a parameter. A statement such as "the count after a purchase is the old count plus one" is about the ledger and is not modelled.
- `web3.utils.fromWei` and `toWei`: the total is kept in wei, and the ticket price is the constant 10^15 wei.
- Asynchrony: promise ordering, `Promise.all`, the receipt event callback, unawaited calls and the re-render-driven effects. Each flow is one sequential step. The draw's receipt handler runs before its `finally` block. Interleavings of concurrent flows, and double clicks before a button is disabled, are not modelled.
- The `window.ethereum.on` call itself (src/App.js:54): registration is the flag `App.listening`, set when `init` reaches it. A throw from that call, and several listeners after repeated `init` calls on one page, are not modelled.
- `alert` texts and `console` output: each is the returned outcome value. The item name in "Ticket bought for …" and the joined list in the congratulations text are not built as strings.
- A `getLotteryTicketsForItem` reply that is a flat list of owner addresses is not modelled. With such a reply, `tickets[0].length` would be the length of the first owner's address string rather than a ticket count.
- An error object without a `message`, and an error whose `code` is not a number: the model's `TxError` always has a message and an optional integer code.
