/** The stored records of one liquid-staking pool. */
module PoolTypes {
  import opened Arith
  import opened Allocation

  const CAL_BASE: nat := 1_000_000
  const DEFAULT_RATE: nat := 1_000_000
  const DEFAULT_ERA_SECONDS: nat := 86400
  const MIN_ERA_SECONDS: nat := 28800
  const MAX_ERA_SECONDS: nat := 86400
  const UNBONDING_SECONDS: nat := 1814400
  const VALIDATOR_LEN_LIMIT: nat := 10
  const SHARE_BASE: nat := 1_000_000_000_000_000_000
  const REPLY_ID_RANGE_START: nat := 1_000_000_000
  const REPLY_ID_RANGE_END: nat := 1_001_000_000

  datatype EraStatus =
    | RegisterEnded | InitStarted | InitFailed
    | EraUpdateStarted | EraUpdateEnded | BondStarted | BondEnded
    | WithdrawStarted | WithdrawEnded | RebondStarted | RebondEnded | ActiveEnded

  datatype ValidatorUpdateStatus = Start | WaitQueryUpdate | End

  datatype WithdrawStatus = Default | Pending

  datatype EraSnapshot = EraSnapshot(
    era: nat, bond: nat, unbond: nat, active: nat, restakeAmount: nat, lastStepHeight: nat)

  const NO_SNAPSHOT := EraSnapshot(0, 0, 0, 0, 0, 0)

  datatype Coin = Coin(denom: string, amount: nat)

  // The pool record, its fields grouped by purpose.

  datatype Book = Book(bond: nat, unbond: nat, active: nat, rate: nat, totalLsd: nat, totalPlatformFee: nat)

  datatype Clock = Clock(era: nat, eraSeconds: nat, offset: int, unbondingPeriod: nat)

  datatype Config = Config(
    admin: string, paused: bool, minimalStake: nat, unstakeTimesLimit: nat,
    unbondCommission: nat, platformFeeCommission: nat, platformFeeReceiver: string,
    lsmSupport: bool, lsmPendingLimit: nat, rateChangeLimit: nat)

  /** Liquid shares waiting to be redeemed, and the denominations being redeemed. */
  datatype ShareTokens = ShareTokens(pending: seq<Coin>, redeeming: seq<string>)

  datatype PoolInfo = PoolInfo(
    book: Book, clock: Clock, config: Config,
    status: EraStatus, snapshot: EraSnapshot,
    validators: seq<string>, validatorUpdate: ValidatorUpdateStatus,
    nextUnstakeIndex: nat, shareTokens: ShareTokens)

  datatype UnstakeInfo = UnstakeInfo(era: nat, unstaker: string, amount: nat, status: WithdrawStatus, index: nat)

  datatype TxType =
    | TxSetWithdrawAddr | TxUpdateValidator | TxRmValidator | TxUserWithdraw | TxEraUpdate | TxEraBond
    | TxEraCollectWithdraw | TxEraRebond | TxStakeLsm | TxRedeemShares

  datatype SudoPayload = SudoPayload(message: string, txType: TxType)

  /** Channel and sequence number of an outgoing packet. */
  datatype PacketKey = PacketKey(channel: string, sequence: nat)

  /** The unstake records by index, and each user's list of indices. */
  datatype Ledger = Ledger(unstakes: map<nat, UnstakeInfo>, userIndex: map<string, seq<nat>>)

  /** The payloads kept for callbacks: by reply id within a transaction, then by packet. */
  datatype Mail = Mail(latestReplyId: nat, replyPayloads: map<nat, SudoPayload>,
                       sudoPayloads: map<PacketKey, SudoPayload>)

  /** What the stack keeps: its administrator and fee settings, the code its tokens are created from, the
      entrusted pools, the fees taken from the pool, and the rate of each era. */
  datatype Stack = Stack(
    admin: string, feeReceiver: string, feeCommission: nat, tokenCode: nat, entrusted: seq<string>,
    totalFee: nat, eraRate: map<nat, nat>)

  datatype PoolState = PoolState(pool: PoolInfo, ledger: Ledger, unbondTimes: Times, mail: Mail, stack: Stack)

  /** Who administers a pool and the stack, and the stack's settings. */
  datatype Deployment = Deployment(
    admin: string, stackAdmin: string, feeReceiver: string, feeCommission: nat, tokenCode: nat, entrusted: seq<string>)

  /** A pool whose interchain accounts are registered and which is not initialised yet. */
  function Registered(d: Deployment): PoolState {
    PoolState(
      PoolInfo(Book(0, 0, 0, 0, 0, 0), Clock(0, 0, 0, 0), Config(d.admin, false, 0, 0, 0, 0, "", false, 0, 0),
               RegisterEnded, NO_SNAPSHOT, [], End, 0, ShareTokens([], [])),
      Ledger(map[], map[]), map[], Mail(REPLY_ID_RANGE_START, map[], map[]),
      Stack(d.stackAdmin, d.feeReceiver, d.feeCommission, d.tokenCode, d.entrusted, 0, map[]))
  }

  /** Messages to the token contract, run in the same transaction. */
  datatype TokenMsg =
    | Mint(recipient: string, amount: nat)
    | TransferFrom(owner: string, recipient: string, amount: nat)
    | BurnFrom(owner: string, amount: nat)

  datatype BankMsg = BankSend(receiver: string, denom: string, amount: nat)

  /** What a handler emits: token and bank messages, the body of its packet, and the validators
      whose rewards the packet also withdraws, in no particular order. */
  datatype Effects = Effects(token: seq<TokenMsg>, remote: seq<RemoteMsg>, rewards: set<string>, bank: seq<BankMsg>)

  const NO_EFFECTS := Effects([], [], {}, [])

  datatype Outcome = Outcome(state: PoolState, effects: Effects)

  /** The answer of an interchain query, with the local height of its last submission. */
  datatype DelegationQuery = DelegationQuery(delegations: seq<Delegation>, height: nat)
  datatype BalanceQuery = BalanceQuery(amount: nat, height: nat)

  datatype InitParams = InitParams(
    validators: seq<string>, platformFeeReceiver: string, minimalStake: nat, unbondingPeriod: nat,
    platformFeeCommission: Option<nat>, eraSeconds: Option<nat>)

  datatype MigrateParams = MigrateParams(
    bond: nat, unbond: nat, active: nat, validators: seq<string>, era: nat, rate: nat,
    totalPlatformFee: nat, totalLsd: nat, platformFeeReceiver: string, shareTokens: seq<Coin>,
    minimalStake: nat, unbondingPeriod: nat, platformFeeCommission: Option<nat>, eraSeconds: nat, offset: int)

  datatype ConfigParams = ConfigParams(
    minimalStake: Option<nat>, unbondingPeriod: Option<nat>, unstakeTimesLimit: Option<nat>,
    unbondCommission: Option<nat>, platformFeeCommission: Option<nat>, eraSeconds: Option<nat>,
    platformFeeReceiver: Option<string>, paused: Option<bool>, lsmSupport: Option<bool>,
    lsmPendingLimit: Option<nat>, rateChangeLimit: Option<nat>, newAdmin: Option<string>)

  datatype StackParams = StackParams(
    feeReceiver: Option<string>, feeCommission: Option<nat>, newAdmin: Option<string>, tokenCode: Option<nat>,
    entrust: Option<string>)
}
