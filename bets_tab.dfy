/** The bets screen of the profile: the status badge colour, the "potential
    win" figure, the split of fetched bets into active and history, and the
    game lookup table assembled by `fetchBets`. */
module BetsTab {
  import opened Wrappers
  import opened Records
  import Odds
  import Ledger

  /** `getStatusColor`: a badge class per status; anything else is gray. */
  function StatusColor(status: BetStatus): (c: string)
    ensures c == "bg-gray-100 text-gray-700" <==> status !in {Active, Open, Matched, Won, Lost}
  {
    match status
    case Active => "bg-blue-100 text-blue-700"
    case Open => "bg-yellow-100 text-yellow-700"
    case Matched => "bg-purple-100 text-purple-700"
    case Won => "bg-green-100 text-green-700"
    case Lost => "bg-red-100 text-red-700"
    case _ => "bg-gray-100 text-gray-700"
  }

  /** The five named statuses get five different colours. */
  lemma StatusColorsDistinct(s1: BetStatus, s2: BetStatus)
    requires s1 in {Active, Open, Matched, Won, Lost} && s2 in {Active, Open, Matched, Won, Lost}
    requires s1 != s2
    ensures StatusColor(s1) != StatusColor(s2)
  {
  }

  /** `potentialWin`: the recorded payout when it is nonzero, otherwise the
      stake times the decimal factor of bettor1's odds — the same figure
      `calculatePayout` gives. */
  function PotentialWin(b: Bet): (w: real)
    requires b.bettor1Odds != 0.0
    ensures b.bettor1Payout.Some? && b.bettor1Payout.value != 0.0 ==> w == b.bettor1Payout.value
    ensures b.bettor1Payout.None? || b.bettor1Payout.value == 0.0 ==> w == Odds.Payout(b.amount, b.bettor1Odds)
  {
    if b.bettor1Payout.Some? && b.bettor1Payout.value != 0.0 then b.bettor1Payout.value
    else b.amount * (if b.bettor1Odds > 0.0 then b.bettor1Odds / 100.0 + 1.0
                     else 100.0 / Odds.Abs(b.bettor1Odds) + 1.0)
  }

  /** Whoever won, a settled bet still shows bettor1's full payout as its
      potential win: a winner's recorded payout is exactly that, and a loser's
      recorded 0 falls back to the formula. */
  lemma PotentialWinOfSettled(b: Bet, gameWinner: Side)
    requires b.bettor1Odds != 0.0
    ensures PotentialWin(Ledger.Resolved(b, Ledger.Settle(b, gameWinner))) == Odds.Payout(b.amount, b.bettor1Odds)
  {
  }

  /** The history list: the fetched bets that are no longer open, matched or
      active. */
  function History(bets: seq<Bet>): (h: seq<Bet>)
    ensures |h| <= |bets|
    ensures forall b :: b in h <==> b in bets && !IsPending(b.status)
  {
    if bets == [] then []
    else (if IsPending(bets[0].status) then [] else [bets[0]]) + History(bets[1..])
  }

  /** The history keeps the fetched order: it distributes over concatenation. */
  lemma {:induction false} HistoryAppend(a: seq<Bet>, b: seq<Bet>)
    ensures History(a + b) == History(a) + History(b)
  {
    if a == [] {
      assert a + b == b;
    } else {
      assert (a + b)[1..] == a[1..] + b;
      HistoryAppend(a[1..], b);
    }
  }

  ghost predicate Distinct<T>(xs: seq<T>)
  {
    forall i, j :: 0 <= i < j < |xs| ==> xs[i] != xs[j]
  }

  /** `[...new Set(xs)]`: each element once, where it first occurs. */
  function Dedup(xs: seq<GameId>): (d: seq<GameId>)
    ensures Distinct(d)
    ensures forall x :: x in d <==> x in xs
    ensures |d| <= |xs|
  {
    if xs == [] then []
    else
      var d := Dedup(xs[..|xs| - 1]);
      if xs[|xs| - 1] in d then d else d + [xs[|xs| - 1]]
  }

  /** The index of the first occurrence of `x`. */
  function FirstIndex(xs: seq<GameId>, x: GameId): (i: nat)
    requires x in xs
    ensures i < |xs| && xs[i] == x
    ensures forall j :: 0 <= j < i ==> xs[j] != x
  {
    if xs[0] == x then 0 else 1 + FirstIndex(xs[1..], x)
  }

  lemma FirstIndexOfPrefix(xs: seq<GameId>, y: GameId, x: GameId)
    requires x in xs
    ensures FirstIndex(xs + [y], x) == FirstIndex(xs, x)
  {
    var i := FirstIndex(xs, x);
    assert (xs + [y])[i] == x;
  }

  /** The de-duplicated ids come in the order of their first occurrences. */
  lemma {:induction false} DedupKeepsFirstOccurrenceOrder(xs: seq<GameId>, i: nat, j: nat)
    requires i < j < |Dedup(xs)|
    ensures FirstIndex(xs, Dedup(xs)[i]) < FirstIndex(xs, Dedup(xs)[j])
  {
    var init := xs[..|xs| - 1];
    var last := xs[|xs| - 1];
    assert xs == init + [last];
    var d := Dedup(init);
    assert Dedup(xs)[i] in init by {
      if i < |d| {
        assert Dedup(xs)[i] == d[i];
      }
    }
    FirstIndexOfPrefix(init, last, Dedup(xs)[i]);
    if j < |d| {
      assert Dedup(xs)[j] == d[j] && Dedup(xs)[i] == d[i];
      FirstIndexOfPrefix(init, last, Dedup(xs)[j]);
      DedupKeepsFirstOccurrenceOrder(init, i, j);
    } else {
      assert Dedup(xs)[j] == last && last !in init;
    }
  }

  function GameIdsOf(bets: seq<Bet>): (ids: seq<GameId>)
    ensures |ids| == |bets|
    ensures forall i :: 0 <= i < |bets| ==> ids[i] == bets[i].gameId
  {
    if bets == [] then [] else [bets[0].gameId] + GameIdsOf(bets[1..])
  }

  /** The game lookup table after the first `n` results: a later entry for the
      same id overwrites an earlier one, a missing game adds nothing. */
  function GamesMapOf(gameIds: seq<GameId>, gameResults: seq<Option<Game>>, n: nat): map<GameId, Game>
    requires n <= |gameIds| == |gameResults|
  {
    if n == 0 then map[]
    else
      var m := GamesMapOf(gameIds, gameResults, n - 1);
      if gameResults[n - 1].Some? then m[gameIds[n - 1] := gameResults[n - 1].value] else m
  }

  /** The table has a key exactly for the ids whose lookup found a game, and on
      distinct ids each key holds its own lookup's game. */
  lemma {:induction false} GamesMapOfKeys(gameIds: seq<GameId>, gameResults: seq<Option<Game>>, n: nat)
    requires n <= |gameIds| == |gameResults|
    ensures forall id :: id in GamesMapOf(gameIds, gameResults, n) <==>
      exists i :: 0 <= i < n && gameIds[i] == id && gameResults[i].Some?
    ensures Distinct(gameIds) ==> forall i :: 0 <= i < n && gameResults[i].Some? ==>
      gameIds[i] in GamesMapOf(gameIds, gameResults, n)
      && GamesMapOf(gameIds, gameResults, n)[gameIds[i]] == gameResults[i].value
  {
    if n > 0 {
      GamesMapOfKeys(gameIds, gameResults, n - 1);
    }
  }

  /** The `forEach` that assembles `gamesMap` from the looked-up games. */
  method BuildGamesMap(gameIds: seq<GameId>, gameResults: seq<Option<Game>>) returns (gamesMap: map<GameId, Game>)
    requires |gameResults| == |gameIds|
    ensures gamesMap == GamesMapOf(gameIds, gameResults, |gameIds|)
  {
    gamesMap := map[];
    var index := 0;
    while index < |gameResults|
      invariant 0 <= index <= |gameResults|
      invariant gamesMap == GamesMapOf(gameIds, gameResults, index)
    {
      var game := gameResults[index];
      if game.Some? {
        gamesMap := gamesMap[gameIds[index] := game.value];
      }
      index := index + 1;
    }
  }

  /** `getGameById`: the game document, or `null` when there is none. */
  function GetGameById(games: map<GameId, Game>, id: GameId): (r: Option<Game>)
    ensures r.Some? <==> id in games
    ensures r.Some? ==> r.value == games[id]
  {
    if id in games then Some(games[id]) else None
  }

  /** `fetchBets` once the two bet queries have answered: the active list as
      fetched, the history filtered, and the games of every fetched bet — the
      unfiltered history's included — keyed by id. */
  method FetchBets(active: seq<Bet>, history: seq<Bet>, games: map<GameId, Game>)
    returns (activeBets: seq<Bet>, betHistory: seq<Bet>, gamesMap: map<GameId, Game>)
    ensures activeBets == active
    ensures betHistory == History(history)
    ensures forall id :: id in gamesMap <==> id in games && id in GameIdsOf(active + history)
    ensures forall id :: id in gamesMap ==> gamesMap[id] == games[id]
  {
    activeBets := active;
    betHistory := History(history);
    var gameIds := Dedup(GameIdsOf(active + history));
    var gameResults := seq(|gameIds|, i requires 0 <= i < |gameIds| => GetGameById(games, gameIds[i]));
    gamesMap := BuildGamesMap(gameIds, gameResults);
    GamesMapOfKeys(gameIds, gameResults, |gameIds|);
    forall id | id in gamesMap
      ensures gamesMap[id] == games[id]
    {
      var i :| 0 <= i < |gameIds| && gameIds[i] == id && gameResults[i].Some?;
    }
    forall id | id in games && id in GameIdsOf(active + history)
      ensures id in gamesMap
    {
      var i :| 0 <= i < |gameIds| && gameIds[i] == id;
      assert gameResults[i].Some?;
    }
  }
}
