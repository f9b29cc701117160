/** The leaderboard ranking loop of `getSortedUsersByBalance`: standard
    competition ranking over the users as the store lists them, by balance
    descending. */
module Leaderboard {
  import opened Wrappers
  import opened Records
  import Helpers

  /** A leaderboard row: the user document with its rendered rank ("3rd"). */
  datatype RankedUser = RankedUser(user: User, rank: string)

  /** Competition rank of entry `i`: an entry equal to its predecessor shares
      the predecessor's rank, any other entry is ranked by its position. */
  function CompetitionRank(users: seq<User>, i: nat): (r: nat)
    requires i < |users|
    ensures 1 <= r <= i + 1
  {
    if i == 0 then 1
    else if users[i].balance == users[i - 1].balance then CompetitionRank(users, i - 1)
    else i + 1
  }

  /** The number a string of decimal digits denotes. */
  function DigitsValue(s: string): nat
  {
    if s == [] then 0
    else
      var c := s[|s| - 1] as int - '0' as int;
      DigitsValue(s[..|s| - 1]) * 10 + (if 0 <= c then c else 0)
  }

  /** The decimal digits of a natural number, as a template literal renders
      it: they denote the number, with no leading zero. */
  function NatToString(n: nat): (s: string)
    ensures |s| >= 1
    ensures forall i :: 0 <= i < |s| ==> '0' <= s[i] <= '9'
    ensures DigitsValue(s) == n
    ensures n > 0 ==> s[0] != '0'
    decreases n
  {
    var d := ('0' as int + n % 10) as char;
    if n < 10 then [d]
    else
      var prefix := NatToString(n / 10);
      assert (prefix + [d])[..|prefix|] == prefix;
      prefix + [d]
  }

  /** The rank as the leaderboard renders it: `${rank}${getOrdinalSuffix(rank)}`. */
  function RankLabel(rank: nat): string
  {
    NatToString(rank) + Helpers.OrdinalSuffix(rank)
  }

  /** A rank label reads back as its rank: decimal digits that denote the rank,
      followed by the rank's two-letter suffix. */
  lemma RankLabelDenotesRank(rank: nat)
    ensures var text := RankLabel(rank);
      && |text| >= 3
      && (forall i :: 0 <= i < |text| - 2 ==> '0' <= text[i] <= '9')
      && DigitsValue(text[..|text| - 2]) == rank
      && text[|text| - 2..] == Helpers.OrdinalSuffix(rank)
  {
    var digits := NatToString(rank);
    var suffix := Helpers.OrdinalSuffix(rank);
    assert |suffix| == 2;
    assert (digits + suffix)[..|digits|] == digits;
    assert (digits + suffix)[|digits|..] == suffix;
  }

  ghost predicate SortedDescending(users: seq<User>)
  {
    forall i, j :: 0 <= i < j < |users| ==> users[i].balance >= users[j].balance
  }

  /** How many users have a balance strictly above `v`. */
  function CountAbove(users: seq<User>, v: real): (n: nat)
    ensures n <= |users|
  {
    if users == [] then 0
    else (if users[0].balance > v then 1 else 0) + CountAbove(users[1..], v)
  }

  /** The index of the last of the first `n` users whose email equals
      `email` (`undefined` never equals an email). */
  function LastWithEmail(users: seq<User>, email: Option<Email>, n: nat): (r: Option<nat>)
    requires n <= |users|
    ensures r.Some? ==> r.value < n && Some(users[r.value].email) == email
    ensures r.Some? ==> forall j :: r.value < j < n ==> Some(users[j].email) != email
    ensures r.None? ==> forall j :: 0 <= j < n ==> Some(users[j].email) != email
  {
    if n == 0 then None
    else if Some(users[n - 1].email) == email then Some(n - 1)
    else LastWithEmail(users, email, n - 1)
  }

  /** The ranking loop. `leaderboard` pairs every user with the label of its
      competition rank; `userRank`/`userBalance` are those of the last user
      whose email matches, and absent when none does. */
  method GetSortedUsersByBalance(sortedUsers: seq<User>, userEmail: Option<Email>)
    returns (leaderboard: seq<RankedUser>, userRank: Option<string>, userBalance: Option<real>)
    ensures |leaderboard| == |sortedUsers|
    ensures forall i {:trigger leaderboard[i]} :: 0 <= i < |sortedUsers| ==>
      leaderboard[i] == RankedUser(sortedUsers[i], RankLabel(CompetitionRank(sortedUsers, i)))
    ensures LastWithEmail(sortedUsers, userEmail, |sortedUsers|).None? ==> userRank.None? && userBalance.None?
    ensures LastWithEmail(sortedUsers, userEmail, |sortedUsers|).Some? ==>
      var k := LastWithEmail(sortedUsers, userEmail, |sortedUsers|).value;
      userRank == Some(leaderboard[k].rank) && userBalance == Some(sortedUsers[k].balance)
  {
    var ranks: seq<RankedUser> := [];
    var rank: nat := 1;
    var previousBalance: Option<real> := None;
    var tieCount: nat := 0;
    userRank, userBalance := None, None;
    var i := 0;
    while i < |sortedUsers|
      invariant 0 <= i <= |sortedUsers|
      invariant |ranks| == i
      invariant forall j {:trigger ranks[j]} :: 0 <= j < i ==>
        ranks[j] == RankedUser(sortedUsers[j], RankLabel(CompetitionRank(sortedUsers, j)))
      invariant rank + tieCount == i + 1
      invariant i == 0 ==> rank == 1 && tieCount == 0 && previousBalance.None?
      invariant i > 0 ==> rank == CompetitionRank(sortedUsers, i - 1) && previousBalance == Some(sortedUsers[i - 1].balance)
      invariant LastWithEmail(sortedUsers, userEmail, i).None? ==> userRank.None? && userBalance.None?
      invariant LastWithEmail(sortedUsers, userEmail, i).Some? ==>
        var k := LastWithEmail(sortedUsers, userEmail, i).value;
        userRank == Some(ranks[k].rank) && userBalance == Some(sortedUsers[k].balance)
    {
      var currentUser := sortedUsers[i];
      if previousBalance == Some(currentUser.balance) {
        tieCount := tieCount + 1;
      } else {
        rank := rank + tieCount;
        tieCount := 1;
      }
      assert rank == CompetitionRank(sortedUsers, i);
      previousBalance := Some(currentUser.balance);
      var computedRank := RankLabel(rank);
      ranks := ranks + [RankedUser(currentUser, computedRank)];
      if Some(currentUser.email) == userEmail {
        userRank := Some(computedRank);
        userBalance := Some(currentUser.balance);
      }
      i := i + 1;
    }
    leaderboard := ranks;
  }

  /** On balance-descending input, an entry's rank lies at the head of the run
      of entries equal to it, and every entry before that run is strictly
      above it. */
  lemma {:induction false} RankStartsRun(users: seq<User>, i: nat)
    requires SortedDescending(users)
    requires i < |users|
    ensures var k := CompetitionRank(users, i) - 1;
      users[k].balance == users[i].balance
      && (forall j :: 0 <= j < k ==> users[j].balance > users[i].balance)
      && (forall j :: k <= j <= i ==> users[j].balance == users[i].balance)
  {
    if i > 0 {
      if users[i].balance == users[i - 1].balance {
        RankStartsRun(users, i - 1);
      } else {
        assert users[i - 1].balance > users[i].balance;
      }
    }
  }

  lemma {:induction false} CountAboveOfPrefix(users: seq<User>, v: real, k: nat)
    requires k <= |users|
    requires forall j :: 0 <= j < k ==> users[j].balance > v
    requires forall j :: k <= j < |users| ==> users[j].balance <= v
    ensures CountAbove(users, v) == k
  {
    if users != [] {
      CountAboveOfPrefix(users[1..], v, if k == 0 then 0 else k - 1);
    }
  }

  /** On balance-descending input, rank = 1 + the number of users with a
      strictly higher balance (the definition of competition ranking). */
  lemma RankIsOnePlusCountAbove(users: seq<User>, i: nat)
    requires SortedDescending(users)
    requires i < |users|
    ensures CompetitionRank(users, i) == 1 + CountAbove(users, users[i].balance)
  {
    RankStartsRun(users, i);
    CountAboveOfPrefix(users, users[i].balance, CompetitionRank(users, i) - 1);
  }

  /** On balance-descending input two entries share a rank exactly when their
      balances are equal. */
  lemma TiesShareRank(users: seq<User>, i: nat, j: nat)
    requires SortedDescending(users)
    requires i < |users| && j < |users|
    ensures CompetitionRank(users, i) == CompetitionRank(users, j) <==> users[i].balance == users[j].balance
  {
    RankStartsRun(users, i);
    RankStartsRun(users, j);
  }

  /** Balances [100, 100, 90, 50] rank as [1, 1, 3, 4]. */
  lemma RankExample(a: User, b: User, c: User, d: User)
    requires a.balance == 100.0 && b.balance == 100.0 && c.balance == 90.0 && d.balance == 50.0
    ensures var users := [a, b, c, d];
      CompetitionRank(users, 0) == 1 && CompetitionRank(users, 1) == 1
      && CompetitionRank(users, 2) == 3 && CompetitionRank(users, 3) == 4
  {
  }
}
