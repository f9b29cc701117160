/** The documents of the betting store: users, games, bets and points
    transactions, with the field names of the store's collections. */
module Records {
  import opened Wrappers

  type UserId = string
  type GameId = string
  type Email = string

  /** Bets are never deleted, so a bet's id is its position in the bets collection. */
  type BetId = nat

  /** The party recorded as winner or loser of a bet nobody took the other side of. */
  const HOUSE: string := "house"

  /** Transaction type names, as the store and the profile screens spell them. */
  const BET_PLACED: string := "bet_placed"
  const BET_WON: string := "bet_won"
  const BET_LOST: string := "bet_lost"
  const BET_REFUND: string := "bet_refund"
  const BONUS: string := "bonus"
  const INITIAL_BALANCE: string := "initial_balance"

  datatype Side = Home | Away

  /** The side a P2P opponent is given: the other one. */
  function Opposite(s: Side): (o: Side)
    ensures o != s
  {
    if s == Home then Away else Home
  }

  datatype BetMode = House | P2P

  datatype BetStatus = Open | Matched | Active | Won | Lost | Push | Cancelled

  /** Statuses whose stake is still reserved: open, matched, active. */
  predicate IsPending(s: BetStatus)
  {
    s == Open || s == Matched || s == Active
  }

  datatype User = User(name: string, email: Email, balance: real)

  /** A game's American odds for each side. */
  datatype Game = Game(homeOdds: real, awayOdds: real)

  function OddsFor(g: Game, s: Side): real
  {
    if s == Home then g.homeOdds else g.awayOdds
  }

  /** A bet record. The bettor2 fields are filled in for P2P bets; the
      winner, loser and payout fields only when the bet is settled. */
  datatype Bet = Bet(
    bettor1Id: UserId,
    bettor2Id: Option<UserId>,
    gameId: GameId,
    bettor1Selection: Side,
    bettor2Selection: Option<Side>,
    amount: real,
    bettor1Odds: real,
    bettor2Odds: Option<real>,
    betMode: BetMode,
    status: BetStatus,
    winnerId: Option<string>,
    loserId: Option<string>,
    bettor1Payout: Option<real>,
    bettor2Payout: Option<real>)

  /** A ledger entry: a signed amount (negative is a debit) for one user. */
  datatype PointsTransaction = PointsTransaction(
    userId: UserId,
    amount: real,
    txType: string,
    relatedBetId: Option<BetId>)
}
