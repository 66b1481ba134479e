/** The ticket bonus.  The loop that hands it out takes the whole bonus out of the properties
    first; a panic ends it, is recovered, and what was not handed out by then is lost. */
module BonusKeeps {
  import opened Amounts
  import opened Sums
  import opened LedgerState
  import opened Evaluators
  import opened Economist
  import opened LedgerInvariant
  import opened LedgerKeeps
  import opened MintKeeps
  import opened PassKeeps
  import opened CashoutKeeps
  import opened BlockPassKeeps
  import opened VestMoves

  // ----- shares -----

  /** The shares of the first `k` producers. */
  function Shared(bonus: U64, n: nat, k: nat): int
    requires 0 < n
  {
    if k == 0 then 0 else bonus - bonus / n * (n - k)
  }

  lemma ShareArithmetic(bonus: U64, n: nat, k: nat)
    requires 0 < k <= n
    ensures Shared(bonus, n, k) - Shared(bonus, n, k - 1) == ShareOf(bonus, n, k == 1)
    ensures 0 <= Shared(bonus, n, k - 1) <= Shared(bonus, n, k) <= bonus
    ensures Shared(bonus, n, n) == bonus
  {
    var share := bonus / n;
    assert share * n <= bonus;
    ShareProducts(share, n, k);
  }

  lemma ShareProducts(share: nat, n: nat, k: nat)
    requires 0 < k <= n
    ensures share * (n - 1) == share * n - share
    ensures share * (n - (k - 1)) == share * (n - k) + share
    ensures 0 <= share * (n - k) <= share * (n - 1)
  {
  }

  function Total(moves: seq<Move>): int {
    if moves == [] then 0 else Total(moves[..|moves| - 1]) + moves[|moves| - 1].d
  }

  lemma TotalMore(moves: seq<Move>, m: Move)
    ensures Total(moves + [m]) == Total(moves) + m.d
  {
    assert (moves + [m])[..|moves|] == moves;
  }

  function ShareMove(n: Name, amount: U64): seq<Move> {
    if amount == 0 then [] else [Move(n, amount)]
  }

  /** What the first `k` scheduled producers are to be paid. */
  function ShareMoves(names: seq<Name>, bonus: U64, k: nat): seq<Move>
    requires k <= |names|
  {
    if k == 0 then []
    else ShareMoves(names, bonus, k - 1) + ShareMove(names[k - 1], ShareOf(bonus, |names|, k == 1))
  }

  lemma {:induction false} SharesTotal(names: seq<Name>, bonus: U64, k: nat)
    requires k <= |names| && names != []
    ensures Total(ShareMoves(names, bonus, k)) == Shared(bonus, |names|, k)
  {
    hide Shared, ShareOf;
    if k == 0 {
      NothingShared(bonus, |names|);
    } else {
      SharesTotal(names, bonus, k - 1);
      ShareArithmetic(bonus, |names|, k);
      var moves, amount := ShareMoves(names, bonus, k - 1), ShareOf(bonus, |names|, k == 1);
      if amount == 0 {
        assert moves + [] == moves;
      } else {
        TotalMore(moves, Move(names[k - 1], amount));
      }
    }
  }

  lemma NothingShared(bonus: U64, n: nat)
    requires 0 < n
    ensures Shared(bonus, n, 0) == 0
  {
  }

  lemma {:induction false} SharesPositive(names: seq<Name>, bonus: U64, k: nat)
    requires k <= |names|
    ensures forall i :: 0 <= i < |ShareMoves(names, bonus, k)| ==>
              ShareMoves(names, bonus, k)[i].d > 0 && ShareMoves(names, bonus, k)[i].name in names
  {
    hide ShareOf;
    if k > 0 {
      SharesPositive(names, bonus, k - 1);
    }
  }

  // ----- how far the loop gets -----

  /** How many moves go through before one meets a stale vote. */
  function Reach(s: State, moves: seq<Move>): (r: nat)
    ensures r <= |moves| && (r == |moves| <==> Covered(s, moves))
  {
    if Covered(s, moves) then |moves| else Reach(s, moves[..|moves| - 1])
  }

  lemma ReachMore(s: State, moves: seq<Move>, m: Move)
    ensures Reach(s, moves + [m]) == if Covered(s, moves + [m]) then |moves| + 1 else Reach(s, moves)
  {
    assert (moves + [m])[..|moves|] == moves;
  }

  /** What is missing when move `r` has written its row and then stopped the loop. */
  function Stopped(s: State, moves: seq<Move>, r: nat, d: Debt): Debt
    requires r < |moves|
  {
    var m := moves[r];
    var e := Paid(d, Total(moves[..r + 1]));
    if m.name in s.votes && 0 <= m.d
    then e.(drift := d.drift[s.votes[m.name] := DriftOf(d.drift, s.votes[m.name]) + m.d]) else e
  }

  /** What is missing after the moves. */
  function LoopDebt(s: State, moves: seq<Move>, d: Debt): Debt {
    if Covered(s, moves) then Paid(d, Total(moves)) else Stopped(s, moves, Reach(s, moves), d)
  }

  ghost predicate LoopLeaves(s: State, moves: seq<Move>, d: Debt, t: State, stopped: bool) {
    && stopped == !Covered(s, moves) && SameBut(s, t) && Holds(t, LoopDebt(s, moves, d))
    && (!stopped ==> Moved(s, t, moves) && Sum(t.accounts, VestOf, ()) == Sum(s.accounts, VestOf, ()) + Total(moves))
  }

  lemma LoopStart(s: State, d: Debt)
    requires Holds(s, d)
    ensures LoopLeaves(s, [], d, s, false)
  {
    hide Sum, Holds;
    MovedNone(s);
    assert Paid(d, 0) == d;
  }

  /** Once stopped, the loop does nothing more. */
  lemma StaysStopped(s: State, moves: seq<Move>, m: Move, d: Debt, t: State)
    requires LoopLeaves(s, moves, d, t, true)
    ensures LoopLeaves(s, moves + [m], d, t, true)
  {
    hide Holds, SameBut, Moved, Sum, CoveredAt, Covered;
    CoveredMore(s, moves, m);
    ReachMore(s, moves, m);
    assert (moves + [m])[..Reach(s, moves) + 1] == moves[..Reach(s, moves) + 1];
  }

  /** One share. */
  lemma ShareOneLeaves(s: State, moves: seq<Move>, d: Debt, t: State, n: Name, amount: U64)
    requires LoopLeaves(s, moves, d, t, false) && n in s.accounts && amount != 0
    requires Sum(s.accounts, VestOf, ()) + Total(moves) + amount < TWO_64
    ensures var (u, stopped) := ShareOne(t, n, amount);
            LoopLeaves(s, moves + [Move(n, amount)], d, u, stopped)
  {
    hide Sum, Holds, PutVest, Moved, Covered, CoveredAt, Stale;
    var m := Move(n, amount);
    var e := Paid(d, Total(moves));
    PayVest(t, n, amount, e);
    MovedStale(s, t, moves, n);
    CoveredMore(s, moves, m);
    TotalMore(moves, m);
    var a := WithVest(t, n, amount);
    if PutVest(t, n, a).Ok? {
      MovedOne(s, t, PutVest(t, n, a).value, moves, n, a);
      assert Paid(e, amount) == Paid(d, Total(moves + [m]));
    } else {
      StopsHere(s, moves, m, d, t, a);
    }
  }

  lemma StopsHere(s: State, moves: seq<Move>, m: Move, d: Debt, t: State, a: Account)
    requires Holds(t, Paid(d, Total(moves))) && SameBut(s, t) && Covered(s, moves) && !Covered(s, moves + [m])
    requires m.name in t.accounts && m.d > 0 && Stale(t, m.name) && a == t.accounts[m.name].(vest := a.vest)
    requires a.vest == t.accounts[m.name].vest + m.d
    ensures SameBut(s, PutAccount(t, m.name, a)) && Holds(PutAccount(t, m.name, a), LoopDebt(s, moves + [m], d))
  {
    hide Sum, StakesOk, OrdersOk, LimitsOk, NamesOk, TallyOk, CountsOk, VotersOk, Minted, MintOk, Covered, Total;
    ReachMore(s, moves, m);
    assert (moves + [m])[..|moves| + 1] == moves + [m] && (moves + [m])[|moves|] == m;
    TotalMore(moves, m);
    AccountSums(t.accounts, m.name, a);
    RecordsRow(t, m.name, a);
    SkippedIndex(t, m.name, a, d.drift);
    assert PutAccount(t, m.name, a).accounts.Keys == t.accounts.Keys;
  }

  /** The loop stops exactly at the first share that meets a stale vote. */
  lemma {:induction false} ShareLoopLeaves(s: State, names: seq<Name>, bonus: U64, k: nat, d: Debt)
    requires k <= |names| && names != [] && forall i :: 0 <= i < |names| ==> names[i] in s.accounts
    requires Holds(s, d) && Sum(s.accounts, VestOf, ()) + bonus < TWO_64
    ensures var (t, stopped) := ShareLoop(s, names, bonus, k);
            LoopLeaves(s, ShareMoves(names, bonus, k), d, t, stopped)
  {
    hide Sum, Holds, ShareOne, LoopLeaves, ShareOf;
    if k == 0 {
      LoopStart(s, d);
    } else {
      ShareLoopLeaves(s, names, bonus, k - 1, d);
      var (t, stopped) := ShareLoop(s, names, bonus, k - 1);
      var moves, amount := ShareMoves(names, bonus, k - 1), ShareOf(bonus, |names|, k == 1);
      if amount == 0 {
        assert moves + [] == moves;
        NoShare(t, names[k - 1]);
      } else if stopped {
        StaysStopped(s, moves, Move(names[k - 1], amount), d, t);
      } else {
        SharesTotal(names, bonus, k - 1);
        ShareArithmetic(bonus, |names|, k);
        ShareOneLeaves(s, moves, d, t, names[k - 1], amount);
      }
    }
  }

  lemma NoShare(t: State, n: Name)
    ensures ShareOne(t, n, 0) == (t, false)
  {
  }

  // ----- the bonus -----

  /** What the scheduled producers are to be paid. */
  function BonusMoves(s: State): seq<Move> {
    if s.props.ticketsBpBonus == 0 || s.schedule == [] then []
    else ShareMoves(s.schedule, s.props.ticketsBpBonus, |s.schedule|)
  }

  /** What is missing after the bonus was shared out. */
  function BonusDebt(s: State, d: Debt): Debt {
    LoopDebt(s, BonusMoves(s), d.(lost := d.lost + Total(BonusMoves(s))))
  }

  /** Taking the bonus out of the properties. */
  lemma BonusTaken(s: State, d: Debt)
    requires Holds(s, d) && d.lost >= 0
    ensures Holds(s.(props := s.props.(ticketsBpBonus := 0)), d.(lost := d.lost + s.props.ticketsBpBonus))
    ensures Sum(s.accounts, VestOf, ()) + s.props.ticketsBpBonus < TWO_64
    ensures forall i :: 0 <= i < |s.schedule| ==> s.schedule[i] in s.accounts
  {
    hide Sum, StakesOk, OrdersOk, LimitsOk, TallyOk, CountsOk, VotersOk, Minted, MintOk;
    SumBounds(s.accounts, DeliveringOf, ());
  }

  /** Sharing out the bonus keeps the books but for what it loses. */
  lemma ShareTicketBonusKeeps(s: State, d: Debt)
    requires Holds(s, d) && d.lost >= 0
    ensures Holds(ShareTicketBonus(s), BonusDebt(s, d)) && SameRest(s, ShareTicketBonus(s))
    ensures Covered(s, BonusMoves(s)) ==> Moved(s, ShareTicketBonus(s), BonusMoves(s))
  {
    hide Sum, Holds, ShareLoop, ShareMoves, Covered, Moved, Total, LoopDebt;
    var bonus := s.props.ticketsBpBonus;
    MovedNone(s);
    if bonus != 0 && s.schedule != [] {
      BonusTaken(s, d);
      var s1 := s.(props := s.props.(ticketsBpBonus := 0));
      var moves := BonusMoves(s);
      var e := d.(lost := d.lost + bonus);
      ShareLoopLeaves(s1, s.schedule, bonus, |s.schedule|, e);
      SharesTotal(s.schedule, bonus, |s.schedule|);
      ShareArithmetic(bonus, |s.schedule|, |s.schedule|);
      SameLoop(s, s1, moves, e);
      if Covered(s, moves) {
        MovedProps(s, s1, ShareTicketBonus(s), ShareTicketBonus(s), moves);
      }
    } else {
      NoBonus(s, d);
    }
  }

  lemma NoBonus(s: State, d: Debt)
    requires BonusMoves(s) == []
    ensures BonusDebt(s, d) == d
  {
  }

  lemma SameLoop(s: State, t: State, moves: seq<Move>, d: Debt)
    requires t == s.(props := t.props)
    ensures LoopDebt(t, moves, d) == LoopDebt(s, moves, d) && (Covered(t, moves) <==> Covered(s, moves))
  {
    hide Covered;
    CoveredSame(s, t, moves);
    SameReach(s, t, moves);
  }

  lemma {:induction false} SameReach(s: State, t: State, moves: seq<Move>)
    requires t == s.(props := t.props)
    ensures Reach(t, moves) == Reach(s, moves)
  {
    hide Covered;
    CoveredSame(s, t, moves);
    MovedNone(s);
    if !Covered(s, moves) {
      SameReach(s, t, moves[..|moves| - 1]);
    }
  }

  lemma {:induction false} TotalTail(moves: seq<Move>, r: nat)
    requires r <= |moves| && forall i :: 0 <= i < |moves| ==> moves[i].d > 0
    ensures Total(moves[..r]) <= Total(moves) && (Total(moves[..r]) == Total(moves) <==> r == |moves|)
    decreases |moves| - r
  {
    if r == |moves| {
      assert moves[..r] == moves;
    } else {
      TotalTail(moves, r + 1);
      assert moves[..r + 1][..r] == moves[..r];
    }
  }

  /** All shares but the last. */
  function ButLast(moves: seq<Move>): seq<Move> {
    if moves == [] then [] else moves[..|moves| - 1]
  }

  /** Nothing is ever gained; nothing is lost exactly when no producer before the last one paid
      has a stale vote. */
  lemma BonusLossIff(s: State, d: Debt)
    ensures BonusDebt(s, d).lost >= d.lost && BonusDebt(s, d).noted == d.noted
    ensures BonusDebt(s, d).lost == d.lost <==> Covered(s, ButLast(BonusMoves(s)))
    ensures Covered(s, BonusMoves(s)) ==> BonusDebt(s, d) == d
  {
    hide ShareMoves, CoveredAt, Total;
    var moves := BonusMoves(s);
    if s.schedule != [] {
      SharesPositive(s.schedule, s.props.ticketsBpBonus, |s.schedule|);
    }
    var r := Reach(s, moves);
    if r == |moves| {
      if moves != [] {
        assert Covered(s, moves[..|moves| - 1]);
      }
    } else {
      TotalTail(moves, r + 1);
      ReachIsCovered(s, moves);
    }
  }

  lemma {:induction false} ReachIsCovered(s: State, moves: seq<Move>)
    requires !Covered(s, moves)
    ensures Reach(s, moves) == |moves| - 1 <==> Covered(s, moves[..|moves| - 1])
  {
    hide CoveredAt;
  }

  // ----- with a right index -----

  ghost predicate NoDrift(d: Debt) {
    forall p :: DriftOf(d.drift, p) == 0
  }

  predicate Upward(moves: seq<Move>) {
    forall i :: 0 <= i < |moves| ==> moves[i].d >= 0
  }

  lemma {:induction false} GainOrder(votes: map<Name, Name>, moves: seq<Move>, n: Name)
    requires Upward(moves) && n in votes
    ensures 0 <= Gain(moves, n) <= VoterGain(votes, moves, votes[n])
  {
    if moves != [] {
      GainOrder(votes, moves[..|moves| - 1], n);
    }
  }

  /** Payments never meet a stale vote while the index is right. */
  lemma {:induction false} NothingStale(s: State, d: Debt, moves: seq<Move>)
    requires IndexOk(s, d.drift) && NoDrift(d) && Upward(moves)
    ensures Covered(s, moves)
  {
    hide IndexOk;
    if moves != [] {
      var init, n := moves[..|moves| - 1], moves[|moves| - 1].name;
      NothingStale(s, d, init);
      if n in s.accounts && n in s.votes {
        NeverStale(s, n, d.drift);
        GainOrder(s.votes, init, n);
      }
    }
  }

  /** The whole bonus then reaches the scheduled producers. */
  lemma BonusExact(s: State, d: Debt)
    requires Holds(s, d) && NoDrift(d)
    ensures BonusDebt(s, d) == d && Covered(s, BonusMoves(s))
  {
    hide ShareMoves, NoDrift, Covered, BonusDebt, Money, Records, IndexOk;
    if s.schedule != [] {
      SharesPositive(s.schedule, s.props.ticketsBpBonus, |s.schedule|);
    }
    NothingStale(s, d, BonusMoves(s));
    BonusLossIff(s, d);
  }

  // ----- equal shares -----

  /** How often a name stands among the first `k`. */
  function Times(names: seq<Name>, k: nat, n: Name): nat
    requires k <= |names|
  {
    if k == 0 then 0 else Times(names, k - 1, n) + if names[k - 1] == n then 1 else 0
  }

  /** One of `k` equal shares, rounded down. */
  predicate EqualShare(q: nat, bonus: nat, k: nat) {
    q * k <= bonus < (q + 1) * k
  }

  lemma EqualShareOf(bonus: U64, k: nat)
    requires 0 < k
    ensures EqualShare(bonus / k, bonus, k) && ShareOf(bonus, k, false) == bonus / k
    ensures ShareOf(bonus, k, true) == bonus - bonus / k * k + bonus / k
  {
    var q := bonus / k;
    assert bonus == q * k + bonus % k;
    assert (q + 1) * k == q * k + k;
    ShareProducts(q, k, 1);
  }

  lemma GainMore(moves: seq<Move>, name: Name, amount: U64, n: Name)
    ensures Gain(moves + ShareMove(name, amount), n) == Gain(moves, n) + if name == n then amount else 0
  {
    if amount == 0 {
      assert moves + ShareMove(name, amount) == moves;
    } else {
      assert (moves + [Move(name, amount)])[..|moves|] == moves;
    }
  }

  lemma {:induction false} SharesEqual(names: seq<Name>, bonus: U64, k: nat, n: Name)
    requires k <= |names| && names != []
    ensures var q := bonus / |names|;
            Gain(ShareMoves(names, bonus, k), n)
            == Times(names, k, n) * q + if 0 < k && names[0] == n then bonus - q * |names| else 0
  {
    hide ShareOf, ShareMove, Gain;
    if k == 0 {
      NoGain(n);
    } else {
      SharesEqual(names, bonus, k - 1, n);
      EqualShareOf(bonus, |names|);
      GainMore(ShareMoves(names, bonus, k - 1), names[k - 1], ShareOf(bonus, |names|, k == 1), n);
      OnceMore(Times(names, k - 1, n), bonus / |names|);
    }
  }

  lemma NoGain(n: Name)
    ensures Gain([], n) == 0
  {
  }

  lemma OnceMore(k: nat, q: nat)
    ensures (k + 1) * q == k * q + q
  {
  }

  /** When no vote is stale every account gains one equal share for each time it is scheduled;
      the first producer gains what rounding leaves over as well.  The bonus is then used up. */
  lemma BonusShares(s: State, d: Debt, n: Name) returns (q: nat)
    requires Holds(s, d) && d.lost >= 0 && n in s.accounts && s.schedule != [] && Covered(s, BonusMoves(s))
    ensures EqualShare(q, s.props.ticketsBpBonus, |s.schedule|)
    ensures var t := ShareTicketBonus(s);
            && n in t.accounts && t.props.ticketsBpBonus == 0
            && t.accounts[n].vest == s.accounts[n].vest + Times(s.schedule, |s.schedule|, n) * q
                                     + if s.schedule[0] == n then s.props.ticketsBpBonus - q * |s.schedule| else 0
  {
    hide Holds, Covered, ShareMoves, ShareTicketBonus, Gain, VoterGain, EqualShare;
    var bonus := s.props.ticketsBpBonus;
    q := bonus / |s.schedule|;
    EqualShareOf(bonus, |s.schedule|);
    ShareTicketBonusKeeps(s, d);
    SharesEqual(s.schedule, bonus, |s.schedule|, n);
    BonusSpent(s, d);
    if bonus == 0 {
      NoGain(n);
      NoneShared(|s.schedule|, Times(s.schedule, |s.schedule|, n));
    }
  }

  lemma NoneShared(k: nat, times: nat)
    requires 0 < k
    ensures 0 / k == 0 && times * (0 / k) == 0 && 0 / k * k == 0
  {
  }

  lemma BonusSpent(s: State, d: Debt)
    requires Holds(s, d) && d.lost >= 0 && s.schedule != []
    ensures ShareTicketBonus(s).props.ticketsBpBonus == 0
  {
    hide Sum, Holds, ShareLoop, ShareMoves, Covered, Moved, Total, LoopDebt;
    if s.props.ticketsBpBonus != 0 {
      BonusTaken(s, d);
      var s1 := s.(props := s.props.(ticketsBpBonus := 0));
      ShareLoopLeaves(s1, s.schedule, s.props.ticketsBpBonus, |s.schedule|, d.(lost := d.lost + s.props.ticketsBpBonus));
    }
  }
}
