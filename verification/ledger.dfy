/**
 * The boundary between the lottery front end and the outside world: the
 * wallet (web3 and the signing agent) and the lottery contract.  Nothing
 * here is computed by the front end; every reply is an input of the model.
 */
module LedgerTypes {

  /** A ledger identity (an address string as web3 returns it). */
  type Account = string

  /** JavaScript's `accounts[0]`: the first account, or `undefined` (None). */
  function FirstAccount(accounts: seq<Account>): Option<Account>
  {
    if |accounts| > 0 then Some(accounts[0]) else None
  }

  datatype Option<T> = None | Some(value: T)

  /** What a thrown error carries that the front end looks at:
      `error.code` (absent for most errors) and `error.message`. */
  datatype TxError = TxError(code: Option<int>, message: string)

  /** The reply of a read-call (or of loading web3): a value, or a throw. */
  datatype Call<T> = Returned(value: T) | Threw(error: TxError)

  /** How an awaited `send(...)` of a write-call ends. */
  datatype SendResult = Confirmed | Failed(error: TxError)

  /** The write-calls the front end can submit, with their sender and value. */
  datatype LedgerWrite =
    | BuyTicketTx(item: nat, from: Account, value: nat)
    | DrawWinnersTx(from: Account)
    | ResetLotteryTx(sender: Option<Account>)
    | WithdrawTx(from: Account)

  /** One ether in wei. */
  const WeiPerEther: nat := 1_000_000_000_000_000_000

  /** The ticket price `toWei('0.001', 'ether')`: one thousandth of an ether. */
  const TicketPriceWei: nat := WeiPerEther / 1000
}
