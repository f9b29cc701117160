/** The points-and-wagering ledger: user balances, bets and the append-only
    points transaction log, with the bet lifecycle operations `placeBet`,
    `joinP2PBet` and `settleBet` and the balance accessor `getUserBalance`.
    The remote document store is modelled as one in-memory object; each
    operation is one sequential step over it. */
module Ledger {
  import opened Wrappers
  import opened Records
  import Odds

  /** The balance a user document is created with at first login. */
  const STARTING_BALANCE: real := 1000.0

  datatype Error =
    | GameNotFound
    | BetNotFound
    | InsufficientBalance
    | BetUnavailable
    | UserNotFound

  /** What `getUserBalance` returns. */
  datatype UserBalance = UserBalance(totalPoints: real, pendingBets: real, availablePoints: real)

  /** The fields of a new bet that the caller of `placeBet` supplies. */
  datatype BetRequest = BetRequest(
    bettor1Id: UserId,
    gameId: GameId,
    bettor1Selection: Side,
    amount: real,
    betMode: BetMode)

  // ----- sums over the collections -----

  /** Sum of the signed amounts of `userId`'s transactions. */
  function Credits(txs: seq<PointsTransaction>, userId: UserId): real
  {
    if txs == [] then 0.0
    else (if txs[0].userId == userId then txs[0].amount else 0.0) + Credits(txs[1..], userId)
  }

  lemma {:induction false} CreditsAppend(txs: seq<PointsTransaction>, t: PointsTransaction, userId: UserId)
    ensures Credits(txs + [t], userId)
         == Credits(txs, userId) + (if t.userId == userId then t.amount else 0.0)
  {
    if txs != [] {
      assert (txs + [t])[1..] == txs[1..] + [t];
      CreditsAppend(txs[1..], t, userId);
    }
  }

  lemma {:induction false} CreditsOfStranger(txs: seq<PointsTransaction>, userId: UserId)
    requires forall i :: 0 <= i < |txs| ==> txs[i].userId != userId
    ensures Credits(txs, userId) == 0.0
  {
    if txs != [] {
      CreditsOfStranger(txs[1..], userId);
    }
  }

  /** The stake `bet` holds back from `userId`'s available points: only the
      owner's (bettor1's) stake, and only while the bet is open, matched or active. */
  function Reserved(bet: Bet, userId: UserId): real
  {
    if bet.bettor1Id == userId && IsPending(bet.status) then bet.amount else 0.0
  }

  function PendingSum(bets: seq<Bet>, userId: UserId): real
  {
    if bets == [] then 0.0 else Reserved(bets[0], userId) + PendingSum(bets[1..], userId)
  }

  lemma {:induction false} PendingAppend(bets: seq<Bet>, b: Bet, userId: UserId)
    ensures PendingSum(bets + [b], userId) == PendingSum(bets, userId) + Reserved(b, userId)
  {
    if bets != [] {
      assert (bets + [b])[1..] == bets[1..] + [b];
      PendingAppend(bets[1..], b, userId);
    }
  }

  lemma {:induction false} PendingUpdate(bets: seq<Bet>, i: nat, b: Bet, userId: UserId)
    requires i < |bets|
    ensures PendingSum(bets[i := b], userId)
         == PendingSum(bets, userId) - Reserved(bets[i], userId) + Reserved(b, userId)
  {
    if i == 0 {
      assert bets[i := b][1..] == bets[1..];
    } else {
      assert bets[i := b][1..] == bets[1..][i - 1 := b];
      PendingUpdate(bets[1..], i - 1, b, userId);
    }
  }

  // ----- bet records -----

  /** The shape every bet keeps through its lifecycle as the operations below
      drive it: house bets are created active and can only become won; P2P bets
      are created open with the opponent's side and odds filled in, and can only
      become matched, at which point they have an opponent. In particular no
      operation ever makes a P2P bet active, so a P2P bet is never settled. */
  predicate WellFormed(b: Bet)
  {
    && (b.betMode == House ==>
          && (b.status == Active || b.status == Won)
          && b.bettor2Id.None? && b.bettor2Selection.None? && b.bettor2Odds.None?)
    && (b.betMode == P2P ==>
          && (b.status == Open || b.status == Matched)
          && b.bettor2Selection == Some(Opposite(b.bettor1Selection))
          && b.bettor2Odds.Some?
          && (b.bettor2Id.Some? <==> b.status == Matched))
  }

  /** The record `placeBet` writes for `req` against `game`. */
  function NewBet(req: BetRequest, game: Game): (b: Bet)
    ensures WellFormed(b)
    ensures b.bettor1Id == req.bettor1Id && b.gameId == req.gameId && b.amount == req.amount
    ensures b.bettor1Selection == req.bettor1Selection && b.betMode == req.betMode
    ensures b.bettor1Odds == OddsFor(game, req.bettor1Selection)
    ensures b.status == (if req.betMode == House then Active else Open)
    ensures req.betMode == P2P ==> b.bettor2Odds == Some(OddsFor(game, Opposite(req.bettor1Selection)))
    ensures b.bettor2Id.None? && b.winnerId.None? && b.loserId.None?
    ensures b.bettor1Payout.None? && b.bettor2Payout.None?
  {
    var sel := req.bettor1Selection;
    Bet(
      bettor1Id := req.bettor1Id,
      bettor2Id := None,
      gameId := req.gameId,
      bettor1Selection := sel,
      bettor2Selection := if req.betMode == P2P then Some(Opposite(sel)) else None,
      amount := req.amount,
      bettor1Odds := OddsFor(game, sel),
      bettor2Odds := if req.betMode == P2P then Some(OddsFor(game, Opposite(sel))) else None,
      betMode := req.betMode,
      status := if req.betMode == House then Active else Open,
      winnerId := None,
      loserId := None,
      bettor1Payout := None,
      bettor2Payout := None)
  }

  /** The outcome `settleBet` computes for a bet before writing anything. */
  datatype Settlement = Settlement(
    winnerId: string,
    loserId: string,
    bettor1Won: bool,
    bettor2Won: bool,
    bettor1Payout: real,
    bettor2Payout: real)

  /** The bet has a P2P opponent, as the source tests it: a truthy
      `bettor2Id`, so an empty id counts as none. */
  predicate HasOpponent(b: Bet)
  {
    b.betMode == P2P && b.bettor2Id.Some? && b.bettor2Id.value != ""
  }

  /** Winner determination and payouts of `settleBet`: bettor1 wins when their
      selection is the game's winner; otherwise a joined P2P opponent whose
      selection is the game's winner wins; otherwise the house wins. Only a
      winning bettor is paid, at the odds snapshotted in the bet. */
  function Settle(b: Bet, gameWinner: Side): (s: Settlement)
    requires b.bettor1Odds != 0.0
    ensures s.bettor1Won <==> b.bettor1Selection == gameWinner
    ensures s.bettor2Won <==>
      b.bettor1Selection != gameWinner && HasOpponent(b) && b.bettor2Selection == Some(gameWinner)
    ensures !(s.bettor1Won && s.bettor2Won)
    ensures s.bettor1Won ==> s.winnerId == b.bettor1Id
    ensures s.bettor1Won ==> s.loserId == (if HasOpponent(b) then b.bettor2Id.value else HOUSE)
    ensures s.bettor2Won ==> s.winnerId == b.bettor2Id.value && s.loserId == b.bettor1Id
    ensures !s.bettor1Won && !s.bettor2Won ==> s.winnerId == HOUSE && s.loserId == b.bettor1Id
    ensures s.bettor1Payout == if s.bettor1Won then Odds.Payout(b.amount, b.bettor1Odds) else 0.0
    ensures s.bettor2Payout ==
      if s.bettor2Won && b.bettor2Odds.Some? && b.bettor2Odds.value != 0.0
      then Odds.Payout(b.amount, b.bettor2Odds.value) else 0.0
  {
    var p2pOpponent := HasOpponent(b);
    var bettor1Won := b.bettor1Selection == gameWinner;
    var bettor2Won := !bettor1Won && p2pOpponent && b.bettor2Selection == Some(gameWinner);
    var winnerId := if bettor1Won then b.bettor1Id else if bettor2Won then b.bettor2Id.value else HOUSE;
    var loserId := if bettor1Won then (if p2pOpponent then b.bettor2Id.value else HOUSE) else b.bettor1Id;
    var bettor1Payout := if bettor1Won then Odds.Payout(b.amount, b.bettor1Odds) else 0.0;
    var bettor2Payout :=
      if bettor2Won && b.bettor2Odds.Some? && b.bettor2Odds.value != 0.0
      then Odds.Payout(b.amount, b.bettor2Odds.value) else 0.0;
    Settlement(winnerId, loserId, bettor1Won, bettor2Won, bettor1Payout, bettor2Payout)
  }

  /** A bet as `settleBet` rewrites it: always status `won`, whoever won. */
  function Resolved(b: Bet, s: Settlement): (r: Bet)
    ensures r.status == Won && !IsPending(r.status)
    ensures r.winnerId == Some(s.winnerId) && r.loserId == Some(s.loserId)
    ensures r.bettor1Payout == Some(s.bettor1Payout) && r.bettor2Payout == Some(s.bettor2Payout)
    ensures r.bettor1Id == b.bettor1Id && r.bettor2Id == b.bettor2Id && r.gameId == b.gameId
    ensures r.bettor1Selection == b.bettor1Selection && r.bettor2Selection == b.bettor2Selection
    ensures r.amount == b.amount && r.bettor1Odds == b.bettor1Odds && r.bettor2Odds == b.bettor2Odds
    ensures r.betMode == b.betMode
  {
    b.(status := Won,
       winnerId := Some(s.winnerId),
       loserId := Some(s.loserId),
       bettor1Payout := Some(s.bettor1Payout),
       bettor2Payout := Some(s.bettor2Payout))
  }

  /** Only a winner is paid: at most one of the two payouts is nonzero, and a
      nonzero payout goes to the recorded winner. */
  lemma OnlyWinnerIsPaid(b: Bet, gameWinner: Side)
    requires b.bettor1Odds != 0.0
    ensures var s := Settle(b, gameWinner);
      && !(s.bettor1Payout != 0.0 && s.bettor2Payout != 0.0)
      && (s.bettor1Payout != 0.0 ==> s.winnerId == b.bettor1Id)
      && (s.bettor2Payout != 0.0 ==> s.winnerId == b.bettor2Id.value)
  {
  }

  /** A house bet is won by bettor1 exactly when their side won; otherwise the
      house wins, and nobody else is ever paid. */
  lemma HouseBetSettlement(b: Bet, gameWinner: Side)
    requires b.bettor1Odds != 0.0 && b.betMode == House
    ensures var s := Settle(b, gameWinner);
      && (s.winnerId == b.bettor1Id || s.winnerId == HOUSE)
      && (b.bettor1Selection == gameWinner ==> s.winnerId == b.bettor1Id && s.loserId == HOUSE)
      && (b.bettor1Selection != gameWinner ==> s.winnerId == HOUSE && s.bettor1Payout == 0.0)
      && s.bettor2Payout == 0.0
  {
  }

  /** In a joined P2P bet whose opponent holds the complementary side, one of
      the two bettors always wins: the house default is never taken. */
  lemma JoinedP2PBetHasBettorWinner(b: Bet, gameWinner: Side)
    requires b.bettor1Odds != 0.0 && HasOpponent(b)
    requires b.bettor2Selection == Some(Opposite(b.bettor1Selection))
    ensures var s := Settle(b, gameWinner);
      s.bettor1Won || s.bettor2Won
  {
    if b.bettor1Selection != gameWinner {
      assert Opposite(b.bettor1Selection) == gameWinner;
    }
  }

  /** An empty `bettor2Id` is falsy: such a bet settles as if nobody had
      joined, so when bettor1 loses the house wins and nobody is paid. */
  lemma EmptyOpponentIdLosesToHouse(b: Bet, gameWinner: Side)
    requires b.bettor1Odds != 0.0 && b.betMode == P2P && b.bettor2Id == Some("")
    requires b.bettor1Selection != gameWinner
    ensures var s := Settle(b, gameWinner);
      s.winnerId == HOUSE && s.loserId == b.bettor1Id && s.bettor1Payout == 0.0 && s.bettor2Payout == 0.0
  {
  }

  /** A house bet of 100 on home at +150, home winning, pays bettor1 250. */
  lemma HouseBetExample(b: Bet)
    requires b.betMode == House && b.bettor1Selection == Home
    requires b.bettor1Odds == 150.0 && b.amount == 100.0
    ensures Settle(b, Home).bettor1Payout == 250.0 && Settle(b, Home).winnerId == b.bettor1Id
  {
    Odds.PayoutExamples();
  }

  /** `balance - Σ(the user's transaction amounts)` is the same before and after
      for every user that existed before: each balance change is matched by a
      transaction of the same signed amount. */
  ghost predicate BalanceMovesWithLedger(
    users0: map<UserId, User>, txs0: seq<PointsTransaction>,
    users1: map<UserId, User>, txs1: seq<PointsTransaction>)
  {
    forall u :: u in users0 ==>
      u in users1 && users1[u].balance - Credits(txs1, u) == users0[u].balance - Credits(txs0, u)
  }

  class Store {
    var users: map<UserId, User>
    var games: map<GameId, Game>
    var bets: seq<Bet>
    var transactions: seq<PointsTransaction>

    /** Game odds are American odds (never 0), so every bet's snapshotted odds
        are nonzero; and every user's balance is the starting balance plus the
        sum of that user's transactions. */
    ghost predicate Valid()
      reads this
    {
      && (forall g :: g in games ==> games[g].homeOdds != 0.0 && games[g].awayOdds != 0.0)
      && (forall i :: 0 <= i < |bets| ==> bets[i].bettor1Odds != 0.0)
      && (forall u :: u in users ==> users[u].balance == STARTING_BALANCE + Credits(transactions, u))
    }

    /** Every bet has the shape the lifecycle operations give it. */
    ghost predicate Lifecycle()
      reads this
    {
      forall i :: 0 <= i < |bets| ==> WellFormed(bets[i])
    }

    constructor (games: map<GameId, Game>)
      requires forall g :: g in games ==> games[g].homeOdds != 0.0 && games[g].awayOdds != 0.0
      ensures Valid() && Lifecycle()
      ensures this.games == games && users == map[] && bets == [] && transactions == []
    {
      this.games := games;
      users := map[];
      bets := [];
      transactions := [];
    }

    /** The user document `login` creates for a new account: created with the
        starting balance unless a user with that email exists. `id` is a fresh
        document id, so no transaction mentions it yet. */
    method Register(id: UserId, name: string, email: Email)
      requires Valid()
      requires id !in users
      requires forall i :: 0 <= i < |transactions| ==> transactions[i].userId != id
      modifies this
      ensures Valid() && (old(Lifecycle()) ==> Lifecycle())
      ensures games == old(games) && bets == old(bets) && transactions == old(transactions)
      ensures (exists u :: u in old(users) && old(users)[u].email == email) ==> users == old(users)
      ensures (forall u :: u in old(users) ==> old(users)[u].email != email) ==>
        users == old(users)[id := User(name, email, STARTING_BALANCE)]
    {
      if exists u :: u in users && users[u].email == email {
        return;
      }
      CreditsOfStranger(transactions, id);
      users := users[id := User(name, email, STARTING_BALANCE)];
    }

    /** `getUserBalance`: total, pending (bettor1 stakes of open, matched and
        active bets) and available points; all zero for an unknown user. */
    function GetUserBalance(userId: UserId): (r: UserBalance)
      reads this
      ensures r.availablePoints == r.totalPoints - r.pendingBets
      ensures userId !in users ==> r == UserBalance(0.0, 0.0, 0.0)
      ensures userId in users ==>
        r.totalPoints == users[userId].balance && r.pendingBets == PendingSum(bets, userId)
    {
      if userId !in users then UserBalance(0.0, 0.0, 0.0)
      else
        var pending := PendingSum(bets, userId);
        UserBalance(users[userId].balance, pending, users[userId].balance - pending)
    }

    /** `createPointsTransaction`: append one entry to the log. */
    method CreatePointsTransaction(t: PointsTransaction)
      modifies this
      ensures transactions == old(transactions) + [t]
      ensures users == old(users) && games == old(games) && bets == old(bets)
    {
      transactions := transactions + [t];
    }

    /** The read-modify-write of a user's balance that follows each ledger
        entry; it fails, changing nothing, when the user document is missing. */
    method AdjustBalance(userId: UserId, delta: real) returns (found: bool)
      modifies this
      ensures found <==> userId in old(users)
      ensures found ==> users == old(users)[userId := old(users)[userId].(balance := old(users)[userId].balance + delta)]
      ensures !found ==> users == old(users)
      ensures games == old(games) && bets == old(bets) && transactions == old(transactions)
    {
      found := userId in users;
      if found {
        users := users[userId := users[userId].(balance := users[userId].balance + delta)];
      }
    }

    /** The ledger step shared by the three operations: append the entry for
        `userId`, then move the balance by the same amount. */
    method Post(userId: UserId, amount: real, txType: string, betId: BetId) returns (found: bool)
      requires Valid()
      modifies this
      ensures Valid()
      ensures found <==> userId in old(users)
      ensures transactions == old(transactions) + [PointsTransaction(userId, amount, txType, Some(betId))]
      ensures found ==> users == old(users)[userId := old(users)[userId].(balance := old(users)[userId].balance + amount)]
      ensures !found ==> users == old(users)
      ensures games == old(games) && bets == old(bets)
      ensures BalanceMovesWithLedger(old(users), old(transactions), users, transactions)
    {
      var t := PointsTransaction(userId, amount, txType, Some(betId));
      CreatePointsTransaction(t);
      found := AdjustBalance(userId, amount);
      forall u | u in users
        ensures Credits(transactions, u) == Credits(old(transactions), u) + (if u == userId then amount else 0.0)
      {
        CreditsAppend(old(transactions), t, u);
      }
    }

    /** `placeBet`. Fails with no effect when the game is missing or bettor1's
        available points are below the stake. Otherwise it writes the new bet
        (id = its position), a `bet_placed` entry of -amount for bettor1 and
        lowers bettor1's balance by the stake; for a bettor with no user
        document the balance update fails after the bet and the entry are
        written. The stake is both debited and still counted as pending, so
        bettor1's available points drop by twice the stake. */
    method PlaceBet(req: BetRequest) returns (r: Result<BetId, Error>)
      requires Valid()
      modifies this
      ensures Valid() && (old(Lifecycle()) ==> Lifecycle())
      ensures games == old(games)
      ensures req.gameId !in old(games) ==> r == Err(GameNotFound) && unchanged(this)
      ensures req.gameId in old(games) && old(GetUserBalance(req.bettor1Id)).availablePoints < req.amount ==>
        r == Err(InsufficientBalance) && unchanged(this)
      ensures req.gameId in old(games) && old(GetUserBalance(req.bettor1Id)).availablePoints >= req.amount ==>
        && bets == old(bets) + [NewBet(req, old(games)[req.gameId])]
        && transactions == old(transactions)
             + [PointsTransaction(req.bettor1Id, -req.amount, BET_PLACED, Some(|old(bets)|))]
        && (req.bettor1Id in old(users) ==>
              && r == Ok(|old(bets)|)
              && users == old(users)[req.bettor1Id := old(users)[req.bettor1Id].(balance := old(users)[req.bettor1Id].balance - req.amount)]
              && GetUserBalance(req.bettor1Id).availablePoints
                 == old(GetUserBalance(req.bettor1Id)).availablePoints - 2.0 * req.amount)
        && (req.bettor1Id !in old(users) ==> r == Err(UserNotFound) && users == old(users))
      ensures BalanceMovesWithLedger(old(users), old(transactions), users, transactions)
    {
      if req.gameId !in games {
        return Err(GameNotFound);
      }
      var game := games[req.gameId];
      var userBalance := GetUserBalance(req.bettor1Id);
      if userBalance.availablePoints < req.amount {
        return Err(InsufficientBalance);
      }
      var bet := NewBet(req, game);
      var betId := |bets|;
      PendingAppend(bets, bet, req.bettor1Id);
      bets := bets + [bet];
      var found := Post(req.bettor1Id, -req.amount, BET_PLACED, betId);
      r := if found then Ok(betId) else Err(UserNotFound);
    }

    /** `joinP2PBet`. Fails with no effect unless the bet exists, is open and
        P2P, and the joiner's available points cover the stake. Otherwise it
        records the joiner as bettor2 and marks the bet matched, writes a
        `bet_placed` entry of -amount for the joiner and lowers the joiner's
        balance by the stake. Nobody's pending sum changes: it only counts the
        bets a user owns as bettor1. */
    method JoinP2PBet(betId: BetId, userId: UserId) returns (r: Result<(), Error>)
      requires Valid()
      modifies this
      ensures Valid() && (old(Lifecycle()) ==> Lifecycle())
      ensures games == old(games)
      ensures betId >= |old(bets)| ==> r == Err(BetNotFound) && unchanged(this)
      ensures betId < |old(bets)| && !(old(bets)[betId].status == Open && old(bets)[betId].betMode == P2P) ==>
        r == Err(BetUnavailable) && unchanged(this)
      ensures betId < |old(bets)| && old(bets)[betId].status == Open && old(bets)[betId].betMode == P2P ==>
        var b := old(bets)[betId];
        && (old(GetUserBalance(userId)).availablePoints < b.amount ==>
              r == Err(InsufficientBalance) && unchanged(this))
        && (old(GetUserBalance(userId)).availablePoints >= b.amount ==>
              && bets == old(bets)[betId := b.(bettor2Id := Some(userId), status := Matched)]
              && transactions == old(transactions)
                   + [PointsTransaction(userId, -b.amount, BET_PLACED, Some(betId))]
              && (userId in old(users) ==>
                    r == Ok(())
                    && users == old(users)[userId := old(users)[userId].(balance := old(users)[userId].balance - b.amount)])
              && (userId !in old(users) ==> r == Err(UserNotFound) && users == old(users)))
      ensures forall u :: PendingSum(bets, u) == old(PendingSum(bets, u))
      ensures BalanceMovesWithLedger(old(users), old(transactions), users, transactions)
    {
      if betId >= |bets| {
        return Err(BetNotFound);
      }
      var bet := bets[betId];
      if bet.status != Open || bet.betMode != P2P {
        return Err(BetUnavailable);
      }
      var userBalance := GetUserBalance(userId);
      if userBalance.availablePoints < bet.amount {
        return Err(InsufficientBalance);
      }
      var joined := bet.(bettor2Id := Some(userId), status := Matched);
      forall u ensures PendingSum(bets[betId := joined], u) == PendingSum(bets, u) {
        PendingUpdate(bets, betId, joined, u);
      }
      bets := bets[betId := joined];
      var found := Post(userId, -bet.amount, BET_PLACED, betId);
      r := if found then Ok(()) else Err(UserNotFound);
    }

    /** `settleBet`. Returns false with no effect unless the bet exists and is
        active. Otherwise it writes the settlement into the bet (status `won`
        whoever won) and, when a bettor won a positive payout, a `bet_won` entry
        of +payout for the winner and raises the winner's balance by it; it
        returns false if the winner has no user document. Only house bets are
        ever active, so a P2P bet is never settled. */
    method SettleBet(betId: BetId, gameWinner: Side) returns (ok: bool)
      requires Valid()
      modifies this
      ensures Valid() && (old(Lifecycle()) ==> Lifecycle())
      ensures games == old(games)
      ensures betId >= |old(bets)| || old(bets)[betId].status != Active ==> !ok && unchanged(this)
      ensures old(Lifecycle()) && betId < |old(bets)| && old(bets)[betId].betMode == P2P ==> !ok
      ensures betId < |old(bets)| && old(bets)[betId].status == Active ==>
        var b := old(bets)[betId];
        var s := Settle(b, gameWinner);
        && bets == old(bets)[betId := Resolved(b, s)]
        && (s.bettor1Won && s.bettor1Payout > 0.0 ==>
              && transactions == old(transactions)
                   + [PointsTransaction(b.bettor1Id, s.bettor1Payout, BET_WON, Some(betId))]
              && (ok <==> b.bettor1Id in old(users))
              && (ok ==> users == old(users)[b.bettor1Id := old(users)[b.bettor1Id].(balance := old(users)[b.bettor1Id].balance + s.bettor1Payout)])
              && (!ok ==> users == old(users)))
        && (s.bettor2Won && s.bettor2Payout > 0.0 ==>
              && transactions == old(transactions)
                   + [PointsTransaction(b.bettor2Id.value, s.bettor2Payout, BET_WON, Some(betId))]
              && (ok <==> b.bettor2Id.value in old(users))
              && (ok ==> users == old(users)[b.bettor2Id.value := old(users)[b.bettor2Id.value].(balance := old(users)[b.bettor2Id.value].balance + s.bettor2Payout)])
              && (!ok ==> users == old(users)))
        && (!(s.bettor1Won && s.bettor1Payout > 0.0) && !(s.bettor2Won && s.bettor2Payout > 0.0) ==>
              ok && transactions == old(transactions) && users == old(users))
        && (b.bettor1Id in old(users) ==>
              GetUserBalance(b.bettor1Id).pendingBets == old(GetUserBalance(b.bettor1Id)).pendingBets - b.amount)
      ensures BalanceMovesWithLedger(old(users), old(transactions), users, transactions)
    {
      if betId >= |bets| || bets[betId].status != Active {
        return false;
      }
      var bet := bets[betId];
      var s := Settle(bet, gameWinner);
      var resolved := Resolved(bet, s);
      forall u ensures PendingSum(bets[betId := resolved], u) == PendingSum(bets, u) - Reserved(bet, u) {
        PendingUpdate(bets, betId, resolved, u);
      }
      bets := bets[betId := resolved];
      ok := true;
      if s.bettor1Won && s.bettor1Payout > 0.0 {
        ok := Post(bet.bettor1Id, s.bettor1Payout, BET_WON, betId);
        if !ok {
          return false;
        }
      }
      if s.bettor2Won && s.bettor2Payout > 0.0 && bet.bettor2Id.Some? && bet.bettor2Id.value != "" {
        ok := Post(bet.bettor2Id.value, s.bettor2Payout, BET_WON, betId);
        if !ok {
          return false;
        }
      }
      ok := true;
    }
  }
}
