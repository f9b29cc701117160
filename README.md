# Points-and-wagering ledger: a verified model

The app is a sports-betting social app backed by a remote document store.
Users hold a points balance (1000 at first login). They place bets on games
against the house or against another user (peer-to-peer, "p2p"), join open
p2p bets and have bets settled. Every balance change writes an entry to an
append-only points-transaction log. The app also has a balance leaderboard,
likes and comment counters on posts, and two profile screens that show a
user's transactions and bets.

The model has one Dafny module per part:

| file | module | what it holds |
|---|---|---|
| `wrappers.dfy` | `Wrappers` | `Option` and `Result` |
| `records.dfy` | `Records` | the store's documents: users, games, bets, points transactions |
| `odds.dfy` | `Odds` | `calculatePayout` on American odds |
| `ledger.dfy` | `Ledger` | the store as a class (`Ledger.Store`) with `getUserBalance`, `createPointsTransaction`, `placeBet`, `joinP2PBet` and `settleBet`; settlement as a pure function |
| `helpers.dfy` | `Helpers` | `getOrdinalSuffix`, with JavaScript's truncating `%` and `undefined` array reads written out |
| `leaderboard.dfy` | `Leaderboard` | the ranking loop of `getSortedUsersByBalance` |
| `social.dfy` | `Social` | the like rows and post/comment counters as a class (`Social.Engagement`) |
| `points_tab.dfy` | `PointsTab` | filtering, counting and summing the transaction history |
| `bets_tab.dfy` | `BetsTab` | the bets screen: status colour, potential win, history filter, game-id de-duplication, the `gamesMap` loop |

The central invariant is `Ledger.Store.Valid()`: every user's balance equals
1000 plus the sum of that user's transaction amounts. Each bet operation
keeps it. Each also establishes `BalanceMovesWithLedger`: for every existing
user, balance minus the user's transaction sum is the same before and after.
`Lifecycle()` says every bet has the shape the lifecycle operations give it.
It is kept apart from `Valid()` so that `settleBet`'s p2p branch stays
reachable when a store does not satisfy it.

Behaviours of the source that the model reproduces on purpose:

- `getUserBalance` counts as pending only the bets where the user is
  bettor1 (lib/appwrite.ts:733). A p2p joiner's stake is never pending.
- `placeBet` debits the stake from the balance and also leaves the bet in
  the pending sum. Bettor1's available points therefore drop by twice the
  stake (`Ledger.Store.PlaceBet`).
- No code moves a bet from `matched` to `active`. `settleBet` requires
  `active`, so a p2p bet can never be settled (`Ledger.Store.SettleBet`
  proves `!ok` for it under `Lifecycle()`).
- `settleBet` writes status `won` even when the house wins (`Ledger.Resolved`).
- An unknown user gets the balance `{0, 0, 0}`.
- `settleBet` tests `bettor2Id` and `bettor2Odds` for JavaScript truthiness.
  An empty `bettor2Id` or zero `bettor2Odds` counts as absent
  (`Ledger.HasOpponent`, `Ledger.EmptyOpponentIdLosesToHouse`).
- The operations are not atomic. When the user document is missing,
  `placeBet` and `joinP2PBet` have already written the bet and the
  transaction before they fail. `settleBet` likewise has already written
  the settlement and the `bet_won` entry. The model keeps these partial
  effects.
- A settled bet's "potential win" is always bettor1's full payout, even when
  bettor1 lost. The recorded payout of 0 is falsy, so the screen falls back
  to the odds formula (`BetsTab.PotentialWinOfSettled`).
- The bets screen looks up games for the unfiltered history
  (components/profile/BetsTab.tsx:128), not only for the history it displays.

Representation choices:

- Amounts, odds and balances are `real`, so there is no floating-point
  rounding.
- A bet's id is its position in the bets collection.
- Transaction types are strings, as stored. Bet statuses and sides are
  datatypes.
- Game odds are assumed nonzero in the store invariant: they are American
  odds, where 0 does not occur.

## Model

| member | source | states |
|---|---|---|
| `Odds.Payout` | lib/appwrite.ts:932-940 | the payout is the stake times the decimal factor of the odds; it exceeds a positive stake, is 0 for a zero stake |
| `Odds.DecimalFactor` | lib/appwrite.ts:932-940 | the decimal factor of nonzero American odds is above 1 |
| `Odds.PayoutAdditive` | lib/appwrite.ts:932-940 | the payout of two stakes together is the sum of their payouts |
| `Odds.PayoutExamples` | lib/appwrite.ts:932-940 | 100 at +150 pays 250; 100 at -200 pays 150 |
| `Helpers.OrdinalSuffix` | lib/helpers.ts:1-5 | the suffix is always one of "th", "st", "nd", "rd" |
| `Helpers.OrdinalSuffixByLastTwoDigits` | lib/helpers.ts:3 | the suffix depends only on `rank % 100` (JavaScript remainder) |
| `Helpers.OrdinalSuffixIsEnglish` | lib/helpers.ts:1-5 | for rank >= 0 the suffix is the English one for rank mod 100: 11-13 give "th", otherwise a last digit of 1/2/3 gives "st"/"nd"/"rd", else "th"; negative ranks give "th" |
| `Helpers.OrdinalSuffixExamples` | lib/helpers.ts:1-5 | 1st, 2nd, 3rd, 4th, 10th, 11th, 12th, 13th, 20th, 21st, 24th, 100th, 101st, 111th, 112th |
| `Leaderboard.NatToString` | lib/appwrite.ts:431 | the rank is rendered as nonempty decimal digits that denote the rank, with no leading zero |
| `Leaderboard.RankLabelDenotesRank` | lib/appwrite.ts:431 | a rank label is the rank's decimal digits followed by its two-letter ordinal suffix, so it reads back as the rank |
| `Leaderboard.CompetitionRank` | lib/appwrite.ts:421-429 | a rank lies between 1 and the entry's position + 1 |
| `Leaderboard.LastWithEmail` | lib/appwrite.ts:438-441 | finds the last entry whose email matches, or reports that none does |
| `Leaderboard.GetSortedUsersByBalance` | lib/appwrite.ts:412-444 | every user appears in order with the label of its competition rank; `userRank`/`userBalance` are the last email match's, absent when none matches |
| `Leaderboard.RankStartsRun` | lib/appwrite.ts:421-429 | on balance-descending input an entry's rank points at the first entry of its run of equal balances |
| `Leaderboard.RankIsOnePlusCountAbove` | lib/appwrite.ts:421-429 | on balance-descending input rank = 1 + number of users with a strictly higher balance |
| `Leaderboard.TiesShareRank` | lib/appwrite.ts:421-429 | on balance-descending input two entries share a rank exactly when their balances are equal |
| `Leaderboard.RankExample` | lib/appwrite.ts:421-429 | balances [100, 100, 90, 50] rank as [1, 1, 3, 4] |
| `Ledger.CreditsAppend` | lib/appwrite.ts:757-770 | appending an entry adds its amount to its own user's sum and nothing to anyone else's |
| `Ledger.CreditsOfStranger` | lib/appwrite.ts:100-107 | a user no entry mentions has a transaction sum of 0 |
| `Ledger.PendingAppend` | lib/appwrite.ts:728-741 | a new bet adds its stake to bettor1's pending sum only, and only while pending |
| `Ledger.PendingUpdate` | lib/appwrite.ts:728-741 | rewriting one bet changes the pending sums by that bet's difference |
| `Ledger.NewBet` | lib/appwrite.ts:821-840 | the new bet snapshots bettor1's odds, is active (house) or open (p2p), and for p2p gets the opposite side and its odds |
| `Ledger.Settle` | lib/appwrite.ts:955-990 | bettor1 wins iff their side won, and then the loser is a truthy bettor2 or the house; bettor2 wins iff bettor1 lost, the bet is p2p with a truthy `bettor2Id` and bettor2's side won; otherwise the house wins and bettor1 loses; bettor1 is paid `calculatePayout` at their odds when they win and 0 otherwise; bettor2 is paid `calculatePayout` at truthy bettor2 odds when they win and 0 otherwise |
| `Ledger.Resolved` | lib/appwrite.ts:995-1008 | the bet is marked won (no longer pending) with the settlement's winner, loser and payouts, and every other field unchanged |
| `Ledger.EmptyOpponentIdLosesToHouse` | lib/appwrite.ts:964-983 | an empty `bettor2Id` is falsy: when bettor1 loses, the house wins and nobody is paid |
| `Ledger.OnlyWinnerIsPaid` | lib/appwrite.ts:983-990 | at most one payout is nonzero, and it goes to the recorded winner |
| `Ledger.HouseBetSettlement` | lib/appwrite.ts:955-990 | a house bet is won by bettor1 or by the house, and bettor2 is never paid |
| `Ledger.JoinedP2PBetHasBettorWinner` | lib/appwrite.ts:955-981 | in a joined p2p bet with complementary sides one of the bettors wins |
| `Ledger.HouseBetExample` | lib/appwrite.ts:955-990 | 100 on home at +150, home winning, pays bettor1 250 |
| `Ledger.Store.constructor` | lib/appwrite.ts:100-107 | an empty store satisfies the ledger invariant |
| `Ledger.Store.Register` | lib/appwrite.ts:95-111 | a new user document starts at 1000 unless one with that email exists; the invariant is kept |
| `Ledger.Store.GetUserBalance` | lib/appwrite.ts:728-753 | available = total - pending; pending is the bettor1 stakes of open, matched and active bets; an unknown user gets all zeros |
| `Ledger.Store.CreatePointsTransaction` | lib/appwrite.ts:757-770 | appends exactly one entry and changes nothing else |
| `Ledger.Store.AdjustBalance` | lib/appwrite.ts:855-869 | moves one user's balance by the delta, or fails with no change when the user document is missing |
| `Ledger.Store.Post` | lib/appwrite.ts:847-869 | appends one entry and moves the same user's balance by the same amount; keeps the invariant |
| `Ledger.Store.PlaceBet` | lib/appwrite.ts:802-876 | missing game or insufficient available points: error, no change; otherwise the new bet, one -stake `bet_placed` entry, and bettor1's balance lowered by the stake (available points drop by twice the stake); ledger invariant kept |
| `Ledger.Store.JoinP2PBet` | lib/appwrite.ts:1128-1187 | not open or not p2p, or insufficient points: error, no change; otherwise bettor2 set, status matched, one -stake entry and balance debit for the joiner; pending sums unchanged; ledger invariant kept |
| `Ledger.Store.SettleBet` | lib/appwrite.ts:943-1066 | not active: false, no change; otherwise the settlement is written with status won, and a positive payout is one `bet_won` entry and the same credit for the winner; a p2p bet is never settled; ledger invariant kept |
| `Social.Toggled` | lib/appwrite.ts:579-608 | toggling flips the presence of the (user, item) row and leaves every other row alone |
| `Social.ToggleTwice` | lib/appwrite.ts:568-614 | two toggles restore the set of liked items (and the rows themselves when the item type is unchanged) |
| `Social.DecrementedCount` | lib/appwrite.ts:558 | the decremented comment count is never below 0 and is one less for a positive count |
| `Social.AdjustedLikes` | lib/appwrite.ts:681 | the new like count is never below 0 and otherwise moves by exactly the increment |
| `Social.Engagement.CheckUserLike` | lib/appwrite.ts:616-633 | returns the user's row for the item exactly when it exists |
| `Social.Engagement.GetUserLikeStatus` | lib/appwrite.ts:635-660 | the result has a `true` entry exactly for the requested items the user likes; empty for no items |
| `Social.Engagement.ToggleLike` | lib/appwrite.ts:568-614 | an empty user id is an error with no change; otherwise the row is flipped and `liked` says whether it exists afterwards |
| `Social.Engagement.IncrementCommentCount` | lib/appwrite.ts:504-525 | an existing post's comment count goes up by one; a missing post is left alone |
| `Social.Engagement.DecrementCommentCount` | lib/appwrite.ts:545-564 | an existing post's comment count goes down by one, never below 0; a missing post is left alone |
| `Social.Engagement.UpdateItemLikeCount` | lib/appwrite.ts:662-703 | the post's or comment's like count moves by the increment, floored at 0, and is returned; a missing item is an error with no change |
| `Social.ToggleSequence` | lib/appwrite.ts:568-614 | like, unlike, like: the answers are liked, unliked, liked |
| `PointsTab.OfType` | components/profile/PointsTab.tsx:144 | keeps exactly the transactions of the given type |
| `PointsTab.OfTypeAppend` | components/profile/PointsTab.tsx:144 | the type filter keeps the original order (it distributes over concatenation) |
| `PointsTab.FilterTransactions` | components/profile/PointsTab.tsx:140-146 | "all" yields the list unchanged; any other key yields exactly the transactions of that type |
| `PointsTab.GetFilterCounts` | components/profile/PointsTab.tsx:161-168 | each count is the length of the list its filter button shows |
| `PointsTab.TypedCountsBounded` | components/profile/PointsTab.tsx:161-168 | the bet_placed, bet_won and bonus counts add up to at most the total |
| `PointsTab.TotalEarned` | components/profile/PointsTab.tsx:186-188 | the sum of positive amounts is never negative |
| `PointsTab.TotalSpent` | components/profile/PointsTab.tsx:190-192 | the sum of absolute negative amounts is never negative |
| `PointsTab.EarnedMinusSpent` | components/profile/PointsTab.tsx:186-192 | earned minus spent is the sum of all amounts |
| `PointsTab.NetOfHistory` | components/profile/PointsTab.tsx:186-192 | on one user's history, earned minus spent is the ledger sum that the store invariant adds to the starting balance |
| `PointsTab.TransactionTitle` | components/profile/PointsTab.tsx:37-47 | the title is "Transaction" exactly for types other than the six known ones |
| `PointsTab.TitlesDistinct` | components/profile/PointsTab.tsx:37-47 | the six known types get six different titles |
| `PointsTab.IsPositive` | components/profile/PointsTab.tsx:58 | a positive entry adds its whole amount to the earned total and nothing to the spent total; any other adds nothing to the earned total |
| `PointsTab.AmountPrefix` | components/profile/PointsTab.tsx:58-86 | the '+' prefix appears exactly for positive amounts |
| `BetsTab.StatusColor` | components/profile/BetsTab.tsx:14-23 | the gray default is used exactly for statuses other than active, open, matched, won, lost |
| `BetsTab.StatusColorsDistinct` | components/profile/BetsTab.tsx:14-23 | the five named statuses get five different colours |
| `BetsTab.PotentialWin` | components/profile/BetsTab.tsx:43 | a nonzero recorded payout is shown as is; otherwise the figure equals `calculatePayout` of the stake and bettor1's odds |
| `BetsTab.PotentialWinOfSettled` | components/profile/BetsTab.tsx:43 | on any settled bet the potential win is bettor1's full payout, won or lost |
| `BetsTab.History` | components/profile/BetsTab.tsx:125 | keeps exactly the bets that are not open, matched or active |
| `BetsTab.HistoryAppend` | components/profile/BetsTab.tsx:125 | the history keeps the fetched order |
| `BetsTab.Dedup` | components/profile/BetsTab.tsx:128 | the game ids are distinct and are exactly the ids of the fetched bets |
| `BetsTab.DedupKeepsFirstOccurrenceOrder` | components/profile/BetsTab.tsx:128 | the de-duplicated ids come in the order of their first occurrences |
| `BetsTab.GamesMapOfKeys` | components/profile/BetsTab.tsx:132-135 | the table has a key exactly for the ids whose lookup found a game, holding that game when ids are distinct |
| `BetsTab.BuildGamesMap` | components/profile/BetsTab.tsx:132-135 | the loop builds the table of `GamesMapOf` over all results |
| `BetsTab.GetGameById` | lib/appwrite.ts:1083-1095 | the game when it exists, nothing otherwise |
| `BetsTab.FetchBets` | components/profile/BetsTab.tsx:115-136 | active bets as fetched, the filtered history, and a games table holding exactly the existing games of all fetched bets |

## Left out

- OAuth login/logout, sessions and `getCurrentUser`: identity-provider I/O.
  Only the user document with its starting balance of 1000 is modelled
  (`Ledger.Store.Register`).
- `Ledger.Store.GetUserBalance`: the email fallback lookup is not modelled,
  because it depends on the current account session. Only the direct id
  lookup is.
- `Ledger.Store.GetUserBalance`: the pending-bets query sets no limit, so
  the store returns only its first page (25 bets by default) and the source
  sums at most 25 pending stakes; `PendingSum` sums all of them.
- `Ledger.Store.GetUserBalance`: "any lookup error gives zeros" is modelled
  only for a missing user document. Store failures are not modelled.
- Store concurrency and partial failure: each operation is one atomic
  sequential step. The partial effects that come from a missing user
  document are kept.
- Timestamps (`new Date()`, `matchedAt`, `resolvedAt`), `ID.unique()` (a
  bet's id is its position) and console logging.
- `Math.round` and `toLocaleString` on the screens: amounts are exact reals.
- Zero odds: the source would divide by zero (Infinity). The model requires
  nonzero odds, through `Ledger.Store.Valid()` for stored bets.
- `Leaderboard.GetSortedUsersByBalance`: the store query that sorts by
  balance is not modelled; the loop takes the sorted list as input. That
  query sets no limit, so the store returns only its first page (25 users by
  default); the model ranks whatever list it is given. The
  catch branch that returns `[]` is not modelled.
- `Social.Engagement.GetUserLikeStatus`: the query's row order is not
  modelled. With at most one row per (user, item), `Query.limit(itemIds.length)`
  never truncates, so the result is order-independent.
- `Social.Engagement.CheckUserLike`: the catch branch that returns `null` on
  a store error is not modelled.
- `createComment` and `deleteComment` write comment documents before they
  call the counter updates. Only the counter updates are modelled.
- `getGameById` errors are treated like a missing game (`null`).
- Storage uploads, profile photos, query wrappers and pagination
  (`getPointsHistory`, `getUserBets`, `getActiveBets`, `getOpenP2PBets`,
  `getGames`), and the pure UI components: I/O or rendering with no logic
  of their own.
- `PointsTab.TotalEarned`: the reduce is modelled as a sum over reals. It
  does not model floating-point summation order.
