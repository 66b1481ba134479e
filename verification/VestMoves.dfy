/** A pass changes the vest of one account after the other, and each change repairs the vote
    index.  Whether a list of changes goes through can be told beforehand. */
module VestMoves {
  import opened Amounts
  import opened LedgerState
  import opened Evaluators
  import opened LedgerInvariant

  datatype Move = Move(name: Name, d: int)

  /** What the moves add to the vest of `n`. */
  function Gain(moves: seq<Move>, n: Name): int {
    if moves == [] then 0
    else Gain(moves[..|moves| - 1], n) + if moves[|moves| - 1].name == n then moves[|moves| - 1].d else 0
  }

  /** What they add to the weight of producer `p`. */
  function VoterGain(votes: map<Name, Name>, moves: seq<Move>, p: Name): int {
    if moves == [] then 0
    else
      var m := moves[|moves| - 1];
      VoterGain(votes, moves[..|moves| - 1], p) + if m.name in votes && votes[m.name] == p then m.d else 0
  }

  /** After the moves, the producer that `n` votes for is credited with the vest of `n` at
      least. */
  predicate CoveredAt(s: State, moves: seq<Move>, n: Name) {
    n in s.accounts && n in s.votes && s.votes[n] in s.producers ==>
      s.accounts[n].vest + Gain(moves, n)
      <= s.producers[s.votes[n]].voteVest + VoterGain(s.votes, moves, s.votes[n])
  }

  /** No move meets a stale index, those before it being made. */
  predicate Covered(s: State, moves: seq<Move>) {
    moves == [] || (Covered(s, moves[..|moves| - 1]) && CoveredAt(s, moves[..|moves| - 1], moves[|moves| - 1].name))
  }

  /** The vest of the accounts and the weights of the producers are those after the moves. */
  ghost predicate Moved(s: State, t: State, moves: seq<Move>) {
    && t.votes == s.votes && t.accounts.Keys == s.accounts.Keys && t.producers.Keys == s.producers.Keys
    && (forall n :: n in s.accounts ==> t.accounts[n].vest == s.accounts[n].vest + Gain(moves, n))
    && (forall p :: p in s.producers ==>
          t.producers[p].voteVest == s.producers[p].voteVest + VoterGain(s.votes, moves, p))
  }

  lemma MovedNone(s: State)
    ensures Moved(s, s, []) && Covered(s, [])
  {
  }

  lemma MovedStale(s: State, t: State, moves: seq<Move>, n: Name)
    requires Moved(s, t, moves) && n in s.accounts
    ensures CoveredAt(s, moves, n) <==> !Stale(t, n)
  {
    hide Gain, VoterGain;
  }

  /** One more change of vest, with its vote update. */
  lemma MovedOne(s: State, t: State, u: State, moves: seq<Move>, n: Name, a: Account)
    requires Moved(s, t, moves) && n in t.accounts && PutVest(t, n, a) == Ok(u)
    ensures Moved(s, u, moves + [Move(n, a.vest - t.accounts[n].vest)])
  {
    hide Gain, VoterGain, PutVest;
    PutVestMoves(t, n, a);
    GainMore(moves, Move(n, a.vest - t.accounts[n].vest), s.votes);
  }

  lemma PutVestMoves(t: State, n: Name, a: Account)
    requires n in t.accounts && PutVest(t, n, a).Ok?
    ensures var u := PutVest(t, n, a).value;
            && u.votes == t.votes && u.accounts == t.accounts[n := a] && u.producers.Keys == t.producers.Keys
            && forall p :: p in t.producers ==>
                 u.producers[p].voteVest
                 == t.producers[p].voteVest + if n in t.votes && t.votes[n] == p then a.vest - t.accounts[n].vest else 0
  {
  }

  lemma GainMore(moves: seq<Move>, m: Move, votes: map<Name, Name>)
    ensures forall n :: Gain(moves + [m], n) == Gain(moves, n) + if m.name == n then m.d else 0
    ensures forall p :: VoterGain(votes, moves + [m], p)
                        == VoterGain(votes, moves, p) + if m.name in votes && votes[m.name] == p then m.d else 0
  {
    assert (moves + [m])[..|moves|] == moves;
  }

  lemma CoveredMore(s: State, moves: seq<Move>, m: Move)
    ensures Covered(s, moves + [m]) <==> Covered(s, moves) && CoveredAt(s, moves, m.name)
  {
    assert (moves + [m])[..|moves|] == moves;
  }

  /** Nothing else matters. */
  lemma MovedFrame(s: State, t: State, u: State, moves: seq<Move>)
    requires Moved(s, t, moves) && u.votes == t.votes
    requires u.accounts.Keys == t.accounts.Keys && u.producers.Keys == t.producers.Keys
    requires forall n :: n in t.accounts ==> u.accounts[n].vest == t.accounts[n].vest
    requires forall p :: p in t.producers ==> u.producers[p].voteVest == t.producers[p].voteVest
    ensures Moved(s, u, moves)
  {
    hide Gain, VoterGain;
  }

  lemma {:induction false} GainConcat(a: seq<Move>, b: seq<Move>, n: Name, votes: map<Name, Name>, p: Name)
    ensures Gain(a + b, n) == Gain(a, n) + Gain(b, n)
    ensures VoterGain(votes, a + b, p) == VoterGain(votes, a, p) + VoterGain(votes, b, p)
  {
    if b == [] {
      assert a + b == a;
    } else {
      assert (a + b)[..|a + b| - 1] == a + b[..|b| - 1];
      GainConcat(a, b[..|b| - 1], n, votes, p);
    }
  }

  lemma MovedOn(s: State, t: State, u: State, a: seq<Move>, b: seq<Move>)
    requires Moved(s, t, a) && Moved(t, u, b)
    ensures Moved(s, u, a + b)
  {
    hide Gain, VoterGain;
    forall n | n in s.accounts
      ensures u.accounts[n].vest == s.accounts[n].vest + Gain(a + b, n)
    {
      GainConcat(a, b, n, s.votes, n);
    }
    forall p | p in s.producers
      ensures u.producers[p].voteVest == s.producers[p].voteVest + VoterGain(s.votes, a + b, p)
    {
      GainConcat(a, b, p, s.votes, p);
    }
  }

  lemma CoveredAtOn(s: State, t: State, a: seq<Move>, b: seq<Move>, n: Name)
    requires Moved(s, t, a)
    ensures CoveredAt(s, a + b, n) <==> CoveredAt(t, b, n)
  {
    hide Gain, VoterGain;
    if n in s.votes {
      GainConcat(a, b, n, s.votes, s.votes[n]);
    }
  }

  /** Two lists of moves, one after the other. */
  lemma {:induction false} CoveredOn(s: State, t: State, a: seq<Move>, b: seq<Move>)
    requires Moved(s, t, a)
    ensures Covered(s, a + b) <==> Covered(s, a) && Covered(t, b)
  {
    hide Moved, CoveredAt;
    if b == [] {
      assert a + b == a;
    } else {
      var init := b[..|b| - 1];
      assert (a + b)[..|a + b| - 1] == a + init;
      CoveredOn(s, t, a, init);
      CoveredAtOn(s, t, a, init, b[|b| - 1].name);
    }
  }
}
