/** What contracts move, and exactly when they can: the arithmetic behind their checks never
    panics, and where it is unchecked it never wraps. */
module ContractEffects {
  import opened Amounts
  import opened Sums
  import opened LedgerState
  import opened Evaluators
  import opened LedgerInvariant
  import opened ContractKeeps
  import opened OpEffects

  /** A payment by a contract succeeds exactly when it is covered and the receiver exists. */
  lemma ContractToUserIff(s: State, contract: ContractId, to: Name, amount: U64, d: Debt)
    requires Reachable(s, d)
    ensures ApplyContractToUser(s, contract, to, amount).Ok? <==>
            contract in s.contracts && amount <= s.contracts[contract] && to in s.accounts
    ensures ApplyContractToUser(s, contract, to, amount).Ok? ==>
              Paid(s, ApplyContractToUser(s, contract, to, amount).value, to, contract, amount)
  {
    hide Holds;
    if ApplyContractToUser(s, contract, to, amount).Ok? {
      ContractToUserKeeps(s, contract, to, amount, d);
    }
  }

  /** A payment to a contract succeeds exactly when it is signed and covered and the contract
      exists. */
  lemma UserToContractIff(s: State, from: Name, contract: ContractId, amount: U64, signed: bool, d: Debt)
    requires Reachable(s, d)
    ensures ApplyUserToContract(s, from, contract, amount, signed).Ok? <==>
            from in s.accounts && signed && amount <= s.accounts[from].balance && contract in s.contracts
    ensures ApplyUserToContract(s, from, contract, amount, signed).Ok? ==>
              Paid(s, ApplyUserToContract(s, from, contract, amount, signed).value, from, contract, 0 - amount)
  {
    hide Holds;
    if ApplyUserToContract(s, from, contract, amount, signed).Ok? {
      UserToContractKeeps(s, from, contract, amount, signed, d);
    }
  }

  /** A payment between contracts succeeds exactly when both exist and it is covered; one to
      itself always does, and moves nothing. */
  lemma ContractToContractIff(s: State, from: ContractId, to: ContractId, amount: U64, d: Debt)
    requires Reachable(s, d)
    ensures ApplyContractToContract(s, from, to, amount).Ok? <==>
            from == to || (from in s.contracts && to in s.contracts && amount <= s.contracts[from])
    ensures ApplyContractToContract(s, from, to, amount).Ok? ==>
              var t := ApplyContractToContract(s, from, to, amount).value;
              && t == s.(contracts := t.contracts) && t.contracts.Keys == s.contracts.Keys
              && forall id :: id in s.contracts ==>
                   t.contracts[id] == s.contracts[id] + if from == to then 0 else If(id == to, amount) - If(id == from, amount)
  {
    hide Holds;
    if ApplyContractToContract(s, from, to, amount).Ok? {
      ContractToContractKeeps(s, from, to, amount, d);
    }
  }

  /** A contract's payment in vest succeeds exactly when it is covered and the receiver exists,
      stale or not; its coins become vest of the receiver, and no vote is looked at. */
  lemma ContractToUserVestIff(s: State, contract: ContractId, to: Name, amount: U64, d: Debt)
    requires Reachable(s, d)
    ensures ApplyContractToUserVest(s, contract, to, amount).Ok? <==>
            contract in s.contracts && amount <= s.contracts[contract] && to in s.accounts
    ensures ApplyContractToUserVest(s, contract, to, amount).Ok? ==>
              var t := ApplyContractToUserVest(s, contract, to, amount).value;
              && t == s.(accounts := t.accounts, contracts := t.contracts, props := t.props)
              && to in t.accounts && t.accounts == s.accounts[to := t.accounts[to]]
              && Gains(s.accounts[to], t.accounts[to], 0, amount)
              && t.contracts == s.contracts[contract := s.contracts[contract] - amount]
              && TotalsToVest(s.props, t.props, amount, 0)
  {
    hide Holds;
    if contract in s.contracts && to in s.accounts && amount <= s.contracts[contract] {
      Room(s, to, d);
      CoinBounds(s, to, contract, d);
    }
  }

  /** A contract is deployed exactly when its code is accepted and its owner is not one of the
      two refused names; a new one starts with nothing, an old one keeps its coins. */
  lemma ContractDeployIff(s: State, id: ContractId, codeAccepted: bool)
    ensures ApplyContractDeploy(s, id, codeAccepted).Ok? <==> codeAccepted && !IsBadGuy(s, id.owner)
    ensures ApplyContractDeploy(s, id, codeAccepted).Ok? ==>
              var t := ApplyContractDeploy(s, id, codeAccepted).value;
              && t == s.(contracts := t.contracts) && t.contracts.Keys == s.contracts.Keys + {id}
              && forall c :: c in t.contracts ==> t.contracts[c] == if c in s.contracts then s.contracts[c] else 0
  {
  }
}
