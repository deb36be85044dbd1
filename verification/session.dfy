/**
 * The human-readable connection status that the app shows for the wallet
 * session, and how it is derived from the account list the wallet reports.
 */
module Session {
  import opened LedgerTypes

  const NoWalletStatus: string := "No wallet connected"
  const ConnectedPrefix: string := "Connected with: "

  /** The status the `accountsChanged` handler sets for a new account list. */
  function StatusFor(accounts: seq<Account>): (s: string)
    ensures s == NoWalletStatus <==> |accounts| == 0
    ensures |accounts| > 0 ==> s == ConnectedPrefix + accounts[0]
  {
    if |accounts| > 0 then
      var s := ConnectedPrefix + accounts[0];
      assert s[0] == 'C' != NoWalletStatus[0];
      s
    else NoWalletStatus
  }

  /** The status after `init` read the account list: `init` only ever sets the
      connected form, so an empty list leaves the previous status in place. */
  function StatusAfterInit(previous: string, accounts: seq<Account>): (s: string)
    ensures |accounts| == 0 ==> s == previous
    ensures previous == NoWalletStatus ==> s == StatusFor(accounts)
  {
    if |accounts| > 0 then ConnectedPrefix + accounts[0] else previous
  }

  /** Reads the connected account back out of a status string. */
  function ConnectedAccount(status: string): Option<Account>
  {
    if |ConnectedPrefix| <= |status| && status[..|ConnectedPrefix|] == ConnectedPrefix
    then Some(status[|ConnectedPrefix|..])
    else None
  }

  /** The status names exactly the first account, and names none when the
      wallet reports no account. */
  lemma StatusRoundTrip(accounts: seq<Account>)
    ensures ConnectedAccount(StatusFor(accounts)) == FirstAccount(accounts)
  {
    var s := StatusFor(accounts);
    if |accounts| > 0 {
      assert s[..|ConnectedPrefix|] == ConnectedPrefix;
      assert s[|ConnectedPrefix|..] == accounts[0];
    } else {
      assert s[0] != ConnectedPrefix[0];
    }
  }
}
