/** The consensus's rule for production rounds: when a round ends, and who is scheduled then. */
module Rounds {
  import opened Amounts
  import opened LedgerState
  import opened Evaluators
  import opened Economist
  import opened LedgerInvariant
  import opened BlockPassKeeps
  import opened BonusKeeps
  import opened LedgerRuns

  /** `shuffle`: every producer has made its blocks in a row. */
  predicate RoundEnds(num: nat, producers: nat)
    requires producers > 0
  {
    num % BLOCK_PROD_REPETITION == 0 && num / BLOCK_PROD_REPETITION % producers == 0
  }

  /** The sorted index, heaviest first, as far as `GetBlockProducerTopN` reads it: the active
      producers, one more of them than are needed. */
  ghost predicate Ranked(producers: map<Name, Producer>, names: seq<Name>) {
    && Distinct(names) && |names| <= MAX_BLOCK_PRODUCER_COUNT + 1
    && (forall i :: 0 <= i < |names| ==> names[i] in producers && producers[names[i]].active)
    && (forall i, j :: 0 <= i < j < |names| ==> producers[names[i]].voteVest >= producers[names[j]].voteVest)
    && (forall n :: n in producers && producers[n].active && n !in names ==>
          |names| == MAX_BLOCK_PRODUCER_COUNT + 1 && producers[n].voteVest <= producers[names[|names| - 1]].voteVest)
  }

  function Except(names: seq<Name>, n: Name): seq<Name> {
    if names == [] then []
    else Except(names[..|names| - 1], n) + if names[|names| - 1] == n then [] else [names[|names| - 1]]
  }

  /** The first producer of the chain gives way as soon as there is another. */
  function Elected(names: seq<Name>, initminer: Name): seq<Name> {
    var others := if |names| > 1 then Except(names, initminer) else names;
    if |others| > MAX_BLOCK_PRODUCER_COUNT then others[..MAX_BLOCK_PRODUCER_COUNT] else others
  }

  /** The schedule is some order of those elected. */
  ghost predicate Elects(producers: map<Name, Producer>, schedule: seq<Name>, initminer: Name) {
    exists names :: Ranked(producers, names) && multiset(schedule) == multiset(Elected(names, initminer))
  }

  /** The block is made by a scheduled producer; it ends a round exactly when it is time, and
      then schedules those elected once the bonus has been shared out. */
  ghost predicate ByRule(s: State, b: Block, initminer: Name) {
    && s.schedule != [] && b.producer in s.schedule
    && (b.round.NewRound? <==> RoundEnds(s.props.head + 1, |s.schedule|))
    && (b.round.NewRound? ==> Elects(ShareTicketBonus(Sharing(s, b)).producers, b.round.schedule, initminer))
  }

  ghost predicate RunByRule(s: State, blocks: seq<Block>, initminer: Name) {
    blocks == []
    || (var init := blocks[..|blocks| - 1];
        RunByRule(s, init, initminer) && ByRule(Run(s, init, initminer), blocks[|blocks| - 1], initminer))
  }

  // ----- who is scheduled -----

  lemma {:induction false} ExceptHas(names: seq<Name>, n: Name)
    ensures forall x :: x in Except(names, n) ==> x in names && x != n
  {
    if names != [] {
      ExceptHas(names[..|names| - 1], n);
    }
  }

  lemma ElectedHas(names: seq<Name>, initminer: Name)
    ensures |Elected(names, initminer)| <= MAX_BLOCK_PRODUCER_COUNT || |names| <= 1
    ensures forall x :: x in Elected(names, initminer) ==> x in names && (|names| > 1 ==> x != initminer)
  {
    ExceptHas(names, initminer);
  }

  /** At most 21 producers are scheduled, all of them active, and the first producer of the
      chain only when it is the only active one. */
  lemma ScheduleRule(producers: map<Name, Producer>, schedule: seq<Name>, initminer: Name)
    requires Elects(producers, schedule, initminer)
    ensures |schedule| <= MAX_BLOCK_PRODUCER_COUNT
    ensures forall i :: 0 <= i < |schedule| ==> schedule[i] in producers && producers[schedule[i]].active
    ensures initminer in schedule ==> forall n :: n in producers && producers[n].active ==> n == initminer
  {
    var names :| Ranked(producers, names) && multiset(schedule) == multiset(Elected(names, initminer));
    hide Elected, Elects;
    ElectedHas(names, initminer);
    SameMembers(schedule, Elected(names, initminer));
    assert forall i :: 0 <= i < |schedule| ==> schedule[i] in schedule;
  }

  lemma SameMembers(a: seq<Name>, b: seq<Name>)
    requires multiset(a) == multiset(b)
    ensures |a| == |b| && forall x :: x in a ==> x in b
  {
    assert |multiset(a)| == |a| && |multiset(b)| == |b|;
    forall x | x in a
      ensures x in b
    {
      assert x in multiset(a);
    }
  }

  /** A block made by the rule is one the theorems on runs speak of. */
  lemma RuleIsOk(s: State, b: Block, initminer: Name, d: Debt)
    requires Holds(s, d) && d.lost >= 0 && ByRule(s, b, initminer)
    requires s.props.head + 1 < MAX_INT64
    ensures b.producer in s.producers
    ensures b.round.NewRound? ==>
              forall i :: 0 <= i < |b.round.schedule| ==> b.round.schedule[i] in Sharing(s, b).producers
  {
    hide Holds, Elects, ShareTicketBonus, Sharing;
    ScheduleOk(s, d);
    if b.round.NewRound? {
      SharedProducers(s, b, d);
      ScheduleRule(ShareTicketBonus(Sharing(s, b)).producers, b.round.schedule, initminer);
    }
  }

  lemma SharedProducers(s: State, b: Block, d: Debt)
    requires Holds(s, d) && d.lost >= 0 && b.producer in s.producers
    requires s.props.head + 1 < MAX_INT64
    ensures ShareTicketBonus(Sharing(s, b)).producers.Keys == Sharing(s, b).producers.Keys
  {
    hide Holds, ApplyTransactions, TransactionsDebt, ShareTicketBonus;
    TransactionsKeep(s, b.trxs, d);
    TransactionsDebtDrift(s, b.trxs, d);
    var s1, e := ApplyTransactions(s, b.trxs), TransactionsDebt(s, b.trxs, d);
    ScheduleOk(s1, e);
    PropsKeep(s1, s1.schedule, Sharing(s, b).props, e);
    ShareTicketBonusKeeps(Sharing(s, b), e);
  }
}
