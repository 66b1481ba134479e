/** Whole blocks over the tables, and the nodes' guarantee for every run of them. */
module BlockApply {
  import opened Amounts
  import opened Sums
  import opened LedgerState
  import opened Evaluators
  import opened Economist
  import opened LedgerInvariant
  import opened LedgerRuns
  import opened MintKeeps
  import opened Ledger
  import opened Passes

  method ApplyTrxs(t: Tables, trxs: seq<seq<Op>>)
    modifies t
    ensures t.View() == ApplyTransactions(old(t.View()), trxs)
  {
    hide Evaluators.ApplyTransaction;
    for i := 0 to |trxs|
      invariant t.View() == ApplyTransactions(old(t.View()), trxs[..i])
    {
      assert trxs[..i + 1][..i] == trxs[..i];
      t.ApplyTransaction(trxs[i]);
    }
    assert trxs[..|trxs|] == trxs;
  }

  /** The transactions, the head, and a new production round if one starts. */
  method Prepare(t: Tables, b: Block)
    modifies t
    ensures t.View() == BeforePasses(old(t.View()), b)
  {
    hide ApplyTransactions, ShareTicketBonus;
    ApplyTrxs(t, b.trxs);
    t.props := t.props.(head := WrapAdd(t.props.head, 1), producer := b.producer);
    if b.round.NewRound? {
      ShareBonus(t);
      t.schedule := b.round.schedule;
      t.props := t.props.(accountCreateFee := b.round.accountCreateFee, perTicketPrice := b.round.perTicketPrice);
    }
  }

  method MarkBoot(t: Tables, initminer: Name)
    modifies t
    ensures t.View() == BootMark(old(t.View()), initminer)
  {
    if t.props.bootCompleted || t.schedule == [initminer] {
      return;
    }
    t.props := t.props.(bootCompleted := true);
    if initminer in t.producers {
      t.producers := t.producers[initminer := t.producers[initminer].(active := false)];
    }
  }

  /** `applyBlock` and the recovery around it: a panic in a pass discards the block. */
  method PushBlock(t: Tables, b: Block, initminer: Name) returns (ok: bool)
    modifies t
    ensures ok == ApplyBlock(old(t.View()), b, initminer).Ok?
    ensures t.View() == if ok then ApplyBlock(old(t.View()), b, initminer).value else old(t.View())
  {
    hide BeforePasses, Mint, Do, PowerDown, Deliver, BootMark;
    var before := t.View();
    Prepare(t, b);
    ok := MintBlock(t);
    if ok {
      ok := DoCashouts(t, b.posts, b.replies, b.dapps, b.votes);
    }
    if ok {
      ok := PowerDownDueAccounts(t, b.poweredDown);
    }
    if ok {
      ok := DeliverDelegatedVests(t, b.delivered);
    }
    if ok {
      MarkBoot(t, initminer);
    } else {
      t.Restore(before);
    }
  }

  /** Genesis, and one block after the other. */
  method RunBlocks(g: State, initminer: Name, blocks: seq<Block>) returns (t: Tables, pushed: seq<bool>)
    ensures t.View() == Run(g, blocks, initminer) && |pushed| == |blocks|
    ensures forall i :: 0 <= i < |blocks| ==>
              pushed[i] == ApplyBlock(Run(g, blocks[..i], initminer), blocks[i], initminer).Ok?
  {
    hide ApplyBlock;
    t := new Tables(g);
    pushed := [];
    for i := 0 to |blocks|
      invariant fresh(t) && t.View() == Run(g, blocks[..i], initminer) && |pushed| == i
      invariant forall j :: 0 <= j < i ==>
                  pushed[j] == ApplyBlock(Run(g, blocks[..j], initminer), blocks[j], initminer).Ok?
    {
      assert blocks[..i + 1][..i] == blocks[..i];
      var ok := PushBlock(t, blocks[i], initminer);
      pushed := pushed + [ok];
    }
    assert blocks[..|blocks|] == blocks;
  }

  /** From genesis on, whatever blocks the consensus lets through: what circulates and what was
      lost add up to the initial supply and what was minted.  While no contract pays vest to a
      voter the whole invariant holds, and so no block is discarded. */
  method RunChain(initminer: Name, key: PubKey, fee: U64, price: U64, blocks: seq<Block>)
    returns (t: Tables, pushed: seq<bool>)
    requires RunOk(Genesis(initminer, key, fee, price), blocks, initminer)
    ensures var g := Genesis(initminer, key, fee, price);
            && t.View() == Run(g, blocks, initminer) && |pushed| == |blocks|
            && (forall i :: 0 <= i < |blocks| ==>
                  pushed[i] == ApplyBlock(Run(g, blocks[..i], initminer), blocks[i], initminer).Ok?)
            && (SafeRun(g, blocks, initminer) ==> Inv(t.View()) && forall i :: 0 <= i < |blocks| ==> pushed[i])
            && Records(t.View()) && RunDebt(g, blocks, initminer, NO_DEBT).lost >= 0
            && Circulating(t.View()) + RunDebt(g, blocks, initminer, NO_DEBT).lost
               == COS_INIT_SUPPLY + Minted(t.props.year) <= COS_TOTAL_SUPPLY
  {
    hide ApplyBlock, Inv, BlockOk, Sum, Genesis, VestHeld, Minted, Records, RunDebt, SafeRun, Run, RunOk;
    var g := Genesis(initminer, key, fee, price);
    t, pushed := RunBlocks(g, initminer, blocks);
    GenesisOk(initminer, key, fee, price);
    SupplyOverRuns(initminer, key, fee, price, blocks);
    if SafeRun(g, blocks, initminer) {
      SafeRunKeeps(g, blocks, initminer);
    }
  }
}
