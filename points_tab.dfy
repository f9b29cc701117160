/** The points history screen: filtering by transaction type, the filter
    counts, the earned/spent totals, the entry titles and the sign prefix. */
module PointsTab {
  import opened Records
  import Ledger

  /** `txns.filter(txn => txn.type === t)`. */
  function OfType(txns: seq<PointsTransaction>, t: string): (r: seq<PointsTransaction>)
    ensures |r| <= |txns|
    ensures forall x :: x in r <==> x in txns && x.txType == t
  {
    if txns == [] then []
    else (if txns[0].txType == t then [txns[0]] else []) + OfType(txns[1..], t)
  }

  /** The filter keeps the original order: it distributes over concatenation. */
  lemma {:induction false} OfTypeAppend(a: seq<PointsTransaction>, b: seq<PointsTransaction>, t: string)
    ensures OfType(a + b, t) == OfType(a, t) + OfType(b, t)
  {
    if a == [] {
      assert a + b == b;
    } else {
      assert (a + b)[1..] == a[1..] + b;
      OfTypeAppend(a[1..], b, t);
    }
  }

  /** `filterTransactions`: the whole list for the key "all", otherwise
      exactly the transactions of that type. */
  function FilterTransactions(txns: seq<PointsTransaction>, filter: string): (r: seq<PointsTransaction>)
    ensures filter == "all" ==> r == txns
    ensures filter != "all" ==> forall x :: x in r <==> x in txns && x.txType == filter
    ensures |r| <= |txns|
  {
    if filter == "all" then txns else OfType(txns, filter)
  }

  /** The counts shown on the filter buttons. */
  datatype FilterCounts = FilterCounts(all: nat, betPlaced: nat, betWon: nat, bonus: nat)

  /** `getFilterCounts`: each count is the length of the list its button shows. */
  function GetFilterCounts(txns: seq<PointsTransaction>): (c: FilterCounts)
    ensures c.all == |txns| == |FilterTransactions(txns, "all")|
    ensures c.betPlaced == |FilterTransactions(txns, BET_PLACED)|
    ensures c.betWon == |FilterTransactions(txns, BET_WON)|
    ensures c.bonus == |FilterTransactions(txns, BONUS)|
  {
    FilterCounts(|txns|, |OfType(txns, BET_PLACED)|, |OfType(txns, BET_WON)|, |OfType(txns, BONUS)|)
  }

  /** The three typed counts never exceed the total: a transaction has one type. */
  lemma {:induction false} TypedCountsBounded(txns: seq<PointsTransaction>)
    ensures var c := GetFilterCounts(txns);
      c.betPlaced + c.betWon + c.bonus <= c.all
  {
    if txns != [] {
      TypedCountsBounded(txns[1..]);
    }
  }

  /** `totalEarned`: the sum of the positive amounts. */
  function TotalEarned(txns: seq<PointsTransaction>): (r: real)
    ensures r >= 0.0
  {
    if txns == [] then 0.0
    else (if txns[0].amount > 0.0 then txns[0].amount else 0.0) + TotalEarned(txns[1..])
  }

  /** `totalSpent`: the sum of the absolute values of the negative amounts. */
  function TotalSpent(txns: seq<PointsTransaction>): (r: real)
    ensures r >= 0.0
  {
    if txns == [] then 0.0
    else (if txns[0].amount < 0.0 then -txns[0].amount else 0.0) + TotalSpent(txns[1..])
  }

  /** The sum of all amounts. */
  function Net(txns: seq<PointsTransaction>): real
  {
    if txns == [] then 0.0 else txns[0].amount + Net(txns[1..])
  }

  /** Earned minus spent is the net of all amounts. */
  lemma {:induction false} EarnedMinusSpent(txns: seq<PointsTransaction>)
    ensures TotalEarned(txns) - TotalSpent(txns) == Net(txns)
  {
    if txns != [] {
      EarnedMinusSpent(txns[1..]);
    }
  }

  /** On one user's history, earned minus spent is exactly what the ledger
      credits to that user, so with the store invariant the balance is the
      starting balance plus earned minus spent. */
  lemma {:induction false} NetOfHistory(txns: seq<PointsTransaction>, userId: UserId)
    requires forall i :: 0 <= i < |txns| ==> txns[i].userId == userId
    ensures TotalEarned(txns) - TotalSpent(txns) == Ledger.Credits(txns, userId)
  {
    if txns != [] {
      NetOfHistory(txns[1..], userId);
    }
  }

  /** The six transaction types the screen knows. */
  const KNOWN_TYPES: set<string> := {BET_PLACED, BET_WON, BET_LOST, BET_REFUND, BONUS, INITIAL_BALANCE}

  /** `getTransactionTitle`: a distinct label for each known type, the generic
      "Transaction" for anything else. */
  function TransactionTitle(txType: string): (title: string)
    ensures title == "Transaction" <==> txType !in KNOWN_TYPES
  {
    match txType
    case "bet_placed" => "Bet Placed"
    case "bet_won" => "Bet Won"
    case "bet_lost" => "Bet Lost"
    case "bet_refund" => "Bet Refund"
    case "bonus" => "Bonus"
    case "initial_balance" => "Initial Balance"
    case _ => "Transaction"
  }

  /** Different known types get different titles. */
  lemma TitlesDistinct(t1: string, t2: string)
    requires t1 in KNOWN_TYPES && t2 in KNOWN_TYPES && t1 != t2
    ensures TransactionTitle(t1) != TransactionTitle(t2)
  {
  }

  /** `isPositive`: an entry shown in green with a '+' is exactly one that
      adds its whole amount to the earned total and nothing to the spent
      total; any other adds nothing to the earned total. */
  predicate IsPositive(t: PointsTransaction)
    ensures IsPositive(t) ==> TotalEarned([t]) == t.amount && TotalSpent([t]) == 0.0
    ensures !IsPositive(t) ==> TotalEarned([t]) == 0.0 && TotalSpent([t]) == -t.amount
  {
    t.amount > 0.0
  }

  /** The sign shown before the amount: '+' for a positive one, nothing
      otherwise (a negative amount prints its own '-'). */
  function AmountPrefix(t: PointsTransaction): (p: string)
    ensures p == "+" <==> IsPositive(t)
    ensures p == "" <==> !IsPositive(t)
  {
    if IsPositive(t) then "+" else ""
  }
}
