/**
 * Winner evaluation ("Check if Winner"): decides, from the mirrored draw
 * flag, admin list, account list and winner slots, which message the user
 * gets and which items they won.
 */
module WinnerEvaluation {
  import opened LedgerTypes

  /** What `checkIfWinner` reports. */
  datatype WinnerOutcome =
    | NotDrawnYet
    | AdminCannotWin
    | Congratulations(items: seq<string>)
    | NoWin

  /** The display name of a winner slot; every index past 1 is the laptop. */
  function ItemName(index: nat): string
  {
    if index == 0 then "IPhone 15" else if index == 1 then "Tesla Model S" else "Macbook Pro"
  }

  /** `winner === accounts[0]`: an undefined first account matches no slot. */
  predicate IsWinnerAt(winners: seq<Account>, who: Option<Account>, i: nat)
    requires i < |winners|
  {
    who == Some(winners[i])
  }

  /** The indices among the first n slots that hold `who`, in slot order. */
  function MatchingIndices(winners: seq<Account>, who: Option<Account>, n: nat): seq<nat>
    requires n <= |winners|
    decreases n
  {
    if n == 0 then []
    else MatchingIndices(winners, who, n - 1) + (if IsWinnerAt(winners, who, n - 1) then [n - 1] else [])
  }

  /** The map-then-filter of slot indices in `checkIfWinner`. */
  function WinningIndices(winners: seq<Account>, who: Option<Account>): seq<nat>
  {
    MatchingIndices(winners, who, |winners|)
  }

  predicate StrictlyIncreasing(s: seq<nat>)
  {
    forall j, k :: 0 <= j < k < |s| ==> s[j] < s[k]
  }

  /** The matching indices are exactly the slots below n that hold `who`,
      listed in ascending order. */
  lemma {:induction false} MatchingIndicesExact(winners: seq<Account>, who: Option<Account>, n: nat)
    requires n <= |winners|
    ensures forall i: nat :: i in MatchingIndices(winners, who, n) <==> i < n && IsWinnerAt(winners, who, i)
    ensures StrictlyIncreasing(MatchingIndices(winners, who, n))
  {
    if n > 0 {
      MatchingIndicesExact(winners, who, n - 1);
      var prev := MatchingIndices(winners, who, n - 1);
      assert forall k :: 0 <= k < |prev| ==> prev[k] < n - 1 by {
        forall k | 0 <= k < |prev| ensures prev[k] < n - 1 {
          assert prev[k] in prev;
        }
      }
    }
  }

  /** The winning indices are exactly the slots that hold `who`, ascending;
      the list is empty exactly when no slot holds `who`. */
  lemma WinningIndicesExact(winners: seq<Account>, who: Option<Account>)
    ensures forall i: nat :: i in WinningIndices(winners, who) <==> i < |winners| && IsWinnerAt(winners, who, i)
    ensures StrictlyIncreasing(WinningIndices(winners, who))
    ensures WinningIndices(winners, who) == [] <==> forall i: nat :: i < |winners| ==> !IsWinnerAt(winners, who, i)
  {
    MatchingIndicesExact(winners, who, |winners|);
    var r := WinningIndices(winners, who);
    if r != [] {
      assert r[0] in r;
    }
  }

  /** The names of the won items: one name for each slot that holds `who`,
      taken in ascending slot order, and no other name. */
  function WinningItems(winners: seq<Account>, who: Option<Account>): (names: seq<string>)
    ensures exists slots: seq<nat> ::
      && |slots| == |names|
      && StrictlyIncreasing(slots)
      && (forall i: nat :: i in slots <==> i < |winners| && IsWinnerAt(winners, who, i))
      && (forall k :: 0 <= k < |names| ==> names[k] == ItemName(slots[k]))
    ensures names == [] <==> forall i: nat :: i < |winners| ==> !IsWinnerAt(winners, who, i)
  {
    WinningIndicesExact(winners, who);
    var indices := WinningIndices(winners, who);
    var names := seq(|indices|, k requires 0 <= k < |indices| => ItemName(indices[k]));
    assert forall k :: 0 <= k < |names| ==> names[k] == ItemName(indices[k]);
    names
  }

  /** `contractAdmins.includes(accounts[0])`. */
  predicate IsListedAdmin(admins: seq<Account>, accounts: seq<Account>)
  {
    |accounts| > 0 && accounts[0] in admins
  }

  /** `checkIfWinner`: the drawn check, then the admin check, then the list. */
  function Evaluate(isDrawn: bool, admins: seq<Account>, accounts: seq<Account>, winners: seq<Account>): WinnerOutcome
  {
    if !isDrawn then NotDrawnYet
    else if IsListedAdmin(admins, accounts) then AdminCannotWin
    else
      var items := WinningItems(winners, FirstAccount(accounts));
      if |items| > 0 then Congratulations(items) else NoWin
  }

  /** Each outcome of `checkIfWinner`, characterised by its inputs: "not drawn"
      exactly when the flag is false (admin or not), "admin" exactly when drawn
      and listed, otherwise congratulations exactly when some slot holds the
      first account, naming the slots that hold it in ascending order. */
  lemma EvaluateOutcomes(isDrawn: bool, admins: seq<Account>, accounts: seq<Account>, winners: seq<Account>)
    ensures Evaluate(isDrawn, admins, accounts, winners) == NotDrawnYet <==> !isDrawn
    ensures Evaluate(isDrawn, admins, accounts, winners) == AdminCannotWin <==> isDrawn && IsListedAdmin(admins, accounts)
    ensures Evaluate(isDrawn, admins, accounts, winners).Congratulations? <==>
      isDrawn && !IsListedAdmin(admins, accounts) &&
      exists i: nat :: i < |winners| && IsWinnerAt(winners, FirstAccount(accounts), i)
    ensures Evaluate(isDrawn, admins, accounts, winners) == NoWin <==>
      isDrawn && !IsListedAdmin(admins, accounts) &&
      forall i: nat :: i < |winners| ==> !IsWinnerAt(winners, FirstAccount(accounts), i)
    ensures Evaluate(isDrawn, admins, accounts, winners).Congratulations? ==>
      var indices := WinningIndices(winners, FirstAccount(accounts));
      && |indices| > 0
      && StrictlyIncreasing(indices)
      && (forall i: nat :: i in indices <==> i < |winners| && IsWinnerAt(winners, FirstAccount(accounts), i))
      && Evaluate(isDrawn, admins, accounts, winners).items == WinningItems(winners, FirstAccount(accounts))
  {
    WinningIndicesExact(winners, FirstAccount(accounts));
  }
}
