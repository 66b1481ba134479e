/** Coin and vest transfers made by contracts.  The balances are added without an
    overflow check, and still never wrap. */
module ContractKeeps {
  import opened Amounts
  import opened Sums
  import opened LedgerState
  import opened Evaluators
  import opened Economist
  import opened LedgerInvariant
  import opened LedgerKeeps

  lemma ContractSum(m: map<ContractId, U64>, id: ContractId, b: U64)
    ensures Sum(m[id := b], ContractBalance, ())
            == Sum(m, ContractBalance, ()) + b - if id in m then m[id] else 0
  {
    hide Sum;
    SumPut(m, ContractBalance, (), id, b);
  }

  /** One account and one contract never hold more than the coin total. */
  lemma CoinBounds(s: State, n: Name, id: ContractId, d: Debt)
    requires Holds(s, d) && n in s.accounts && id in s.contracts
    ensures s.accounts[n].balance + s.contracts[id] <= s.props.totalCos
  {
    hide Sum, Records, IndexOk;
    SumBounds(s.accounts, BalanceOf, ());
    SumBounds(s.contracts, ContractBalance, ());
  }

  lemma TwoContracts(s: State, a: ContractId, b: ContractId, d: Debt)
    requires Holds(s, d) && a in s.contracts && b in s.contracts && a != b
    ensures s.contracts[a] + s.contracts[b] <= s.props.totalCos
  {
    hide Sum, Records, IndexOk;
    SumBounds(s.accounts, BalanceOf, ());
    SumRemove(s.contracts, ContractBalance, (), a);
    SumBounds(s.contracts - {a}, ContractBalance, ());
    assert b in s.contracts - {a};
  }

  /** Contract balances may change when their sum and the coin total move together. */
  lemma ContractsKeep(s: State, contracts: map<ContractId, U64>, d: Debt)
    requires Holds(s, d) && Sum(contracts, ContractBalance, ()) == Sum(s.contracts, ContractBalance, ())
    ensures Holds(s.(contracts := contracts), d)
  {
    hide Sum, StakesOk, OrdersOk, LimitsOk, NamesOk, TallyOk, CountsOk, VotersOk;
  }

  lemma ContractDeployKeeps(s: State, id: ContractId, codeAccepted: bool, d: Debt)
    requires Holds(s, d) && ApplyContractDeploy(s, id, codeAccepted).Ok?
    ensures Holds(ApplyContractDeploy(s, id, codeAccepted).value, d)
  {
    hide Holds, Sum;
    if id !in s.contracts {
      ContractSum(s.contracts, id, 0);
      ContractsKeep(s, s.contracts[id := 0], d);
    }
  }

  lemma ContractToContractKeeps(s: State, from: ContractId, to: ContractId, amount: U64, d: Debt)
    requires Holds(s, d) && ApplyContractToContract(s, from, to, amount).Ok?
    ensures var t := ApplyContractToContract(s, from, to, amount).value;
            && Holds(t, d)
            && (from != to ==>
                  && t == s.(contracts := t.contracts)
                  && t.contracts == s.contracts[from := s.contracts[from] - amount][to := s.contracts[to] + amount])
  {
    hide Holds, Sum;
    if from != to {
      TwoContracts(s, from, to, d);
      var m := s.contracts[from := s.contracts[from] - amount];
      ContractSum(s.contracts, from, s.contracts[from] - amount);
      ContractSum(m, to, m[to] + amount);
      ContractsKeep(s, m[to := m[to] + amount], d);
    }
  }

  /** The contract paid `d` coins to the account, and nothing else changed. */
  ghost predicate Paid(s: State, t: State, n: Name, id: ContractId, d: int) {
    && n in s.accounts && n in t.accounts && id in s.contracts && id in t.contracts
    && t == s.(accounts := s.accounts[n := t.accounts[n]], contracts := s.contracts[id := t.contracts[id]])
    && t.accounts[n] == s.accounts[n].(balance := t.accounts[n].balance)
    && t.accounts[n].balance == s.accounts[n].balance + d && t.contracts[id] == s.contracts[id] - d
  }

  /** Coins move between one account and one contract. */
  lemma CoinMoves(s: State, n: Name, id: ContractId, c: int, d: Debt)
    requires Holds(s, d) && n in s.accounts && id in s.contracts
    requires 0 <= s.accounts[n].balance + c < TWO_64 && 0 <= s.contracts[id] - c < TWO_64
    ensures Holds(s.(accounts := s.accounts[n := s.accounts[n].(balance := s.accounts[n].balance + c)],
                     contracts := s.contracts[id := s.contracts[id] - c]), d)
  {
    hide Sum, StakesOk, OrdersOk, LimitsOk, NamesOk, TallyOk, CountsOk, VotersOk, Minted, MintOk;
    var a := s.accounts[n].(balance := s.accounts[n].balance + c);
    AccountSums(s.accounts, n, a);
    ContractSum(s.contracts, id, s.contracts[id] - c);
    RowKeeps(s, n, a, d.drift);
  }

  lemma ContractToUserKeeps(s: State, contract: ContractId, to: Name, amount: U64, d: Debt)
    requires Holds(s, d) && ApplyContractToUser(s, contract, to, amount).Ok?
    ensures var t := ApplyContractToUser(s, contract, to, amount).value;
            Holds(t, d) && Paid(s, t, to, contract, amount)
  {
    hide Holds;
    CoinBounds(s, to, contract, d);
    CoinMoves(s, to, contract, amount, d);
  }

  lemma UserToContractKeeps(s: State, from: Name, contract: ContractId, amount: U64, signed: bool, d: Debt)
    requires Holds(s, d) && ApplyUserToContract(s, from, contract, amount, signed).Ok?
    ensures var t := ApplyUserToContract(s, from, contract, amount, signed).value;
            Holds(t, d) && Paid(s, t, from, contract, 0 - amount)
  {
    hide Holds;
    CoinBounds(s, from, contract, d);
    CoinMoves(s, from, contract, 0 - amount, d);
  }

  // ----- vest -----

  /** What the vote index misses once a contract has paid vest to an account. */
  function VestDebt(s: State, to: Name, amount: U64, d: Debt): Debt {
    if amount == 0 || to !in s.votes then d
    else d.(drift := d.drift[s.votes[to] := DriftOf(d.drift, s.votes[to]) + amount])
  }

  /** Paying vest from a contract moves exactly the amount, and keeps the sums and the books;
      what a voter receives is missing from the index. */
  lemma ContractToUserVestKeeps(s: State, contract: ContractId, to: Name, amount: U64, d: Debt)
    requires Holds(s, d) && ApplyContractToUserVest(s, contract, to, amount).Ok?
    ensures Holds(ApplyContractToUserVest(s, contract, to, amount).value, VestDebt(s, to, amount, d))
    ensures var t := ApplyContractToUserVest(s, contract, to, amount).value;
            && t == s.(accounts := t.accounts, contracts := t.contracts, props := t.props)
            && t.accounts == s.accounts[to := t.accounts[to]] && t.accounts[to].vest == s.accounts[to].vest + amount
            && t.contracts == s.contracts[contract := s.contracts[contract] - amount]
  {
    hide Sum, StakesOk, OrdersOk, LimitsOk, NamesOk, TallyOk, CountsOk, VotersOk, Minted, MintOk;
    var t := ApplyContractToUserVest(s, contract, to, amount).value;
    AccountSums(s.accounts, to, t.accounts[to]);
    ContractSum(s.contracts, contract, t.contracts[contract]);
    RecordsRow(s, to, t.accounts[to]);
    SkippedUpdate(s, to, t.accounts[to], amount, d);
  }

  lemma SkippedUpdate(s: State, to: Name, a: Account, amount: U64, d: Debt)
    requires IndexOk(s, d.drift) && to in s.accounts
    requires a.vest == s.accounts[to].vest + amount && a.bpVoteCount == s.accounts[to].bpVoteCount
    ensures IndexOk(PutAccount(s, to, a), VestDebt(s, to, amount, d).drift)
  {
    hide Sum;
    if amount == 0 || to !in s.votes {
      TallyFrame(s.producers, s.votes, s.accounts, d.drift, to, a);
    } else {
      SkippedIndex(s, to, a, d.drift);
    }
  }

  /** With a right index, it stays right exactly when the receiver does not vote. */
  lemma ContractToUserVestIndex(s: State, contract: ContractId, to: Name, amount: U64)
    requires Inv(s) && ApplyContractToUserVest(s, contract, to, amount).Ok?
    ensures Inv(ApplyContractToUserVest(s, contract, to, amount).value) <==> amount == 0 || to !in s.votes
  {
    hide Sum, StakesOk, OrdersOk, LimitsOk, NamesOk, CountsOk, Minted, MintOk;
    var t := ApplyContractToUserVest(s, contract, to, amount).value;
    ContractToUserVestKeeps(s, contract, to, amount, NO_DEBT);
    if to in s.votes {
      VoteShift(s.votes, s.accounts, to, t.accounts[to], s.votes[to]);
      assert s.votes[to] in s.producers;
    }
  }
}
