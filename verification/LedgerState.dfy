/** The rows of the chain's tables that hold value, and the chain's constants. */
module LedgerState {
  import opened Amounts

  // common/constants/constants.go and constants_mainnet.go

  const COS_TOKEN_DECIMALS: U64 := 1_000_000
  const COS_INIT_SUPPLY: U64 := 6_500_000_000 * COS_TOKEN_DECIMALS
  const COS_TOTAL_SUPPLY: U64 := 10_000_000_000 * COS_TOKEN_DECIMALS
  const BLOCK_INTERVAL: U64 := 1
  const PERCENT: U64 := 10_000
  const REWARD_RATE_CREATOR: U64 := 6_000
  const REWARD_RATE_DAPP: U64 := 1_000
  const REWARD_RATE_AUTHOR: U64 := 7_500
  const REWARD_RATE_REPLY: U64 := 1_500
  const CONVERT_WEEKS: U64 := 13
  const HARD_FORK2_CONVERT_WEEKS: U64 := 7
  const HARD_FORK2: U64 := 11_314_200
  const HARD_FORK3: U64 := 16_411_000
  const HARD_FORK4: U64 := 116_110_000
  const POWER_DOWN_BLOCK_INTERVAL: U64 := 604_800
  const STAKE_FREEZE_TIME: U64 := 259_200
  const VEST_DELEGATION_DELIVERY_IN_BLOCKS: U64 := 604_800
  const VP_DECAY_TIME: U64 := 907_200
  const MIN_VEST_DELEGATION_AMOUNT: U64 := 1
  const MIN_BP_REGISTER_VEST: U64 := 30_000 * COS_TOKEN_DECIMALS
  const PER_USER_BP_VOTE_LIMIT: U32 := 1
  const MAX_TICKETS_PER_TURN: U64 := 100_000
  const DEFAULT_ACCOUNT_CREATE_FEE: U64 := COS_TOKEN_DECIMALS / 10
  const PER_TICKET_PRICE: U64 := 10_000_000 * COS_TOKEN_DECIMALS
  const BLOCK_PROD_REPETITION: nat := 5
  const MAX_BLOCK_PRODUCER_COUNT: nat := 21
  const MIN_REPUTATION: U32 := 0
  const DEFAULT_REPUTATION: U32 := 100
  const MAX_UINT64: U64 := 0xFFFF_FFFF_FFFF_FFFF
  const MAX_INT64: U64 := 0x7FFF_FFFF_FFFF_FFFF

  type Name = string

  datatype PubKey = PubKey(data: seq<int>)

  datatype ContractId = ContractId(owner: Name, cname: string)

  datatype Account = Account(
    balance: U64,
    vest: U64,
    borrowed: U64,         // vest lent to this account by others, included in vest
    lent: U64,             // vest this account lent to others
    delivering: U64,       // vest on its way back to this account
    stakeFor: U64,         // stake others and itself placed on this account
    stakeFrom: U64,        // stake this account placed
    toPowerdown: U64,
    hasPowerdown: U64,
    eachRate: U64,
    nextPowerdown: U64,
    reputation: U32,
    chargedTicket: U32,
    bpVoteCount: U32,
    pubKey: PubKey)

  datatype Producer = Producer(active: bool, voteVest: U64, voterCount: nat, genBlocks: nat)

  datatype StakeKey = StakeKey(from: Name, to: Name)

  datatype StakeRecord = StakeRecord(amount: U64, lastStakeBlock: U64)

  datatype Order = Order(from: Name, to: Name, amount: U64, maturity: U64, delivery: U64, delivering: bool)

  datatype PoolKind = Posts | Replies | Dapps | Votes

  /** One reward pool: what is left, what was claimed, and the decaying global weight. */
  datatype Pool = Pool(rewards: U64, claimed: U64, weightedVps: nat)

  /** The minting year: its number, its budget and what it has minted. */
  datatype Year = Year(ith: U32, budget: U64, minted: U64)

  datatype Props = Props(
    head: U64,
    producer: Name,
    bootCompleted: bool,
    totalCos: U64,
    totalVest: U64,
    stakeVest: U64,
    accountCreateFee: U64,
    perTicketPrice: U64,
    ticketsIncome: U64,
    chargedTicketsNum: U64,
    ticketsBpBonus: U64,
    year: Year,
    posts: Pool,
    replies: Pool,
    dapps: Pool,
    votes: Pool)

  /** `votes` is the unique voter index of the vote table: voter to block producer. */
  datatype State = State(
    accounts: map<Name, Account>,
    contracts: map<ContractId, U64>,
    producers: map<Name, Producer>,
    votes: map<Name, Name>,
    stakes: map<StakeKey, StakeRecord>,
    orders: map<U64, Order>,
    orderCounter: U64,
    schedule: seq<Name>,
    dappRewards: map<U64, U64>,   // what posts earned for the applications that carry them
    props: Props)

  function GetPool(p: Props, kind: PoolKind): Pool {
    match kind
    case Posts => p.posts
    case Replies => p.replies
    case Dapps => p.dapps
    case Votes => p.votes
  }

  function PutPool(p: Props, kind: PoolKind, pool: Pool): Props {
    match kind
    case Posts => p.(posts := pool)
    case Replies => p.(replies := pool)
    case Dapps => p.(dapps := pool)
    case Votes => p.(votes := pool)
  }

  /** Transactions run inside block `head + 1`, whose number selects the hard fork. */
  predicate AtLeast(s: State, hardFork: U64) {
    s.props.head + 1 >= hardFork
  }

  predicate IsBadGuy(s: State, n: Name) {
    AtLeast(s, HARD_FORK4) && (n == "iuaghdfkjan" || n == "woerujdfsdf")
  }

  /** `initGenesis`: the initial supply belongs to `initminer`, the only producer. */
  function Genesis(initminer: Name, key: PubKey, accountCreateFee: U64, perTicketPrice: U64): State {
    var pool := Pool(0, 0, 2_000_000_000);
    State(
      map[initminer := Account(COS_INIT_SUPPLY, 0, 0, 0, 0, 0, 0, 0, 0, 0, MAX_UINT64,
                               DEFAULT_REPUTATION, 0, 0, key)],
      map[],
      map[initminer := Producer(true, 0, 0, 0)],
      map[], map[], map[], 0, [initminer], map[],
      Props(0, initminer, false, COS_INIT_SUPPLY, 0, 0, accountCreateFee, perTicketPrice,
            0, 0, 0, Year(1, 0, 0), pool, pool, pool, pool))
  }
}
