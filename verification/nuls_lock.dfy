/** The bookkeeping of NulsLock.java: per-user principal and unlock time
    written by `deposit`, the admin registry, and the admin gate on the two
    vault withdrawals. Every public operation is a pure transition from a
    state and a call environment to a successor state (plus the outbound
    vault calls it makes) or a revert. */
module NulsLock {
  import opened Results

  /** A NULS account address. */
  type Address = string

  /** NulsLock.java encodes "active" as `paused = 2`; nothing writes it. */
  const Active: int := 2

  /** The lock `deposit` writes, hard-coded as two 365-day years in seconds. */
  const DepositLockSeconds: int := 2 * 365 * 24 * 60 * 60

  /** What the virtual machine supplies to a call: `Msg.sender()`,
      `Msg.value()` (the attached NULS, never negative) and
      `Block.timestamp()`. */
  datatype Env = Env(sender: Address, value: nat, timestamp: int)

  /** The reasons a call reverts: one per `require` message, and the
      virtual machine's refusal of NULS attached to a method that is not
      annotated `@Payable`. */
  datatype Error =
    | NotPayable
    | InvalidAmountSent    // "Invalid Amount sent"
    | InvalidAdmin         // "Invalid Admin"
    | CannotRemoveItself   // "Can't remove itself"

  /** An outbound `callWithReturnValue` on the aiNULS deposit contract:
      the address it is sent to (unset if the field is null), the method
      name and the NULS attached. Its return value is not modelled. */
  datatype VaultCall = VaultCall(target: Option<Address>, name: string, value: int)

  /** The contract's fields. `aiNULSDepositContract` and `manager` are
      nullable references; balances and lock times are `BigInteger`s. */
  datatype State = State(
    aiNULSDepositContract: Option<Address>,
    aiNULS: Address,
    lockTime: int,
    paused: int,
    manager: Option<Address>,
    userBalance: map<Address, int>,
    userLockTime: map<Address, int>,
    projectAdmin: map<Address, bool>)

  /** A successful call: the new state and the vault calls made, in order. */
  datatype Step = Step(next: State, calls: seq<VaultCall>)

  /** The unlock time recorded for `addr`, if any. NulsLock.java has no
      getter for it; this reads the `userLockTime` map. */
  function UnlockTime(s: State, addr: Address): (t: Option<int>)
  {
    if addr in s.userLockTime then Some(s.userLockTime[addr]) else None
  }

  /** An entry point without `@Payable` (all here but `deposit`) is refused
      by the virtual machine when NULS is attached, before its body runs. */
  predicate PaymentRefused(env: Env)
  {
    env.value > 0
  }

  /** The admin check that opens every privileged operation: the entry
      must be present and true. */
  predicate AdminGate(s: State, caller: Address)
  {
    caller in s.projectAdmin && s.projectAdmin[caller]
  }

  /** The fields set at construction are the same in both states. */
  predicate SameConfiguration(s: State, t: State)
  {
    && t.aiNULSDepositContract == s.aiNULSDepositContract
    && t.aiNULS == s.aiNULS
    && t.lockTime == s.lockTime
    && t.paused == s.paused
    && t.manager == s.manager
  }

  /** Every field other than the user maps is as it was, and the user maps
      differ from the old ones at most at `u`. */
  predicate OnlyAccountChanged(s: State, t: State, u: Address)
  {
    && SameConfiguration(s, t)
    && t.projectAdmin == s.projectAdmin
    && t.userBalance - {u} == s.userBalance - {u}
    && t.userLockTime - {u} == s.userLockTime - {u}
  }

  /** Every field other than the admin registry is as it was, and the
      registry differs from the old one at most at `a`. */
  predicate OnlyAdminEntryChanged(s: State, t: State, a: Address)
  {
    && t == s.(projectAdmin := t.projectAdmin)
    && t.projectAdmin - {a} == s.projectAdmin - {a}
  }

  /** The constructor. As written it assigns the deposit-contract parameter
      to itself, so that field stays null; the other fields are stored and
      `admin_` is registered as the only admin. */
  function Construct(aiNULSDepositContract_: Address, aiNULS_: Address, lockTime_: int, admin_: Address): (s: State)
    ensures s.aiNULSDepositContract == None
    ensures s.aiNULS == aiNULS_ && s.lockTime == lockTime_
    ensures s.paused == Active && s.manager == None
    ensures IsAdmin(s, admin_)
    ensures forall a :: a != admin_ ==> !IsAdmin(s, a)
    ensures forall a :: GetUserBalance(s, a) == 0 && UnlockTime(s, a) == None
  {
    State(None, aiNULS_, lockTime_, Active, None, map[], map[], map[admin_ := true])
  }

  /** The principal recorded for `addr`, zero when it never deposited. */
  function GetUserBalance(s: State, addr: Address): (b: int)
    ensures addr !in s.userBalance ==> b == 0
    ensures addr in s.userBalance ==> b == s.userBalance[addr]
  {
    if addr !in s.userBalance then 0 else s.userBalance[addr]
  }

  /** Whether `admin` is registered as an admin; an address never
      registered reads as false. Agrees with the gate of the privileged
      operations. */
  function IsAdmin(s: State, admin: Address): (b: bool)
    ensures b <==> AdminGate(s, admin)
  {
    if admin !in s.projectAdmin then false else s.projectAdmin[admin]
  }

  /** `deposit(amount)`: reverts unless the attached value covers `amount`
      (which is a signed integer and is not checked further); credits the
      sender, resets the sender's unlock time to two years from now (the
      `lockTime` field is not used), and forwards `amount` to the deposit
      contract. */
  function Deposit(s: State, env: Env, amount: int): (r: Result<Step, Error>)
    ensures r.Err? <==> env.value < amount
    ensures r.Err? ==> r.error == InvalidAmountSent
    ensures r.Ok? ==> GetUserBalance(r.value.next, env.sender) == GetUserBalance(s, env.sender) + amount
    ensures r.Ok? ==> env.sender in r.value.next.userBalance
    ensures r.Ok? ==> UnlockTime(r.value.next, env.sender) == Some(env.timestamp + DepositLockSeconds)
    ensures r.Ok? ==> OnlyAccountChanged(s, r.value.next, env.sender)
    ensures r.Ok? ==> r.value.calls == [VaultCall(s.aiNULSDepositContract, "deposit", amount)]
  {
    if env.value < amount then Err(InvalidAmountSent)
    else
      var balance := if env.sender !in s.userBalance then amount
                     else s.userBalance[env.sender] + amount;
      var next := s.(userBalance := s.userBalance[env.sender := balance],
                     userLockTime := s.userLockTime[env.sender := env.timestamp + DepositLockSeconds]);
      Ok(Step(next, [VaultCall(s.aiNULSDepositContract, "deposit", amount)]))
  }

  /** The non-payable, admin-gated vault withdrawal shared by `claimRewards` and
      `withdrawAfterLock`: no ledger field changes, and one `withdraw`
      call with nothing attached goes to the deposit contract. */
  function AdminWithdraw(s: State, env: Env): (r: Result<Step, Error>)
    ensures r.Err? <==> env.value > 0 || !IsAdmin(s, env.sender)
    ensures r.Err? ==> (r.error == NotPayable <==> env.value > 0)
    ensures r.Err? ==> r.error in {NotPayable, InvalidAdmin}
    ensures r.Ok? ==> r.value.next == s
    ensures r.Ok? ==> r.value.calls == [VaultCall(s.aiNULSDepositContract, "withdraw", 0)]
  {
    if PaymentRefused(env) then Err(NotPayable)
    else if !AdminGate(s, env.sender) then Err(InvalidAdmin)
    else Ok(Step(s, [VaultCall(s.aiNULSDepositContract, "withdraw", 0)]))
  }

  /** `claimRewards()`: not payable, admin only; a vault withdrawal and nothing else. */
  function ClaimRewards(s: State, env: Env): (r: Result<Step, Error>)
    ensures r.Err? <==> env.value > 0 || !IsAdmin(s, env.sender)
    ensures r.Err? ==> (r.error == NotPayable <==> env.value > 0)
    ensures r.Err? ==> r.error in {NotPayable, InvalidAdmin}
    ensures r.Ok? ==> r.value.next == s
    ensures r.Ok? ==> r.value.calls == [VaultCall(s.aiNULSDepositContract, "withdraw", 0)]
  {
    AdminWithdraw(s, env)
  }

  /** `withdrawAfterLock()`: not payable, admin only; it reads neither the caller's
      balance nor its unlock time, and pays nothing to the caller. */
  function WithdrawAfterLock(s: State, env: Env): (r: Result<Step, Error>)
    ensures r.Err? <==> env.value > 0 || !IsAdmin(s, env.sender)
    ensures r.Err? ==> (r.error == NotPayable <==> env.value > 0)
    ensures r.Err? ==> r.error in {NotPayable, InvalidAdmin}
    ensures r.Ok? ==> r.value.next == s
    ensures r.Ok? ==> r.value.calls == [VaultCall(s.aiNULSDepositContract, "withdraw", 0)]
  {
    AdminWithdraw(s, env)
  }

  /** `addAdmin(newAdmin)`: not payable, admin only; stores `newAdmin -> true`. */
  function AddAdmin(s: State, env: Env, newAdmin: Address): (r: Result<Step, Error>)
    ensures r.Err? <==> env.value > 0 || !IsAdmin(s, env.sender)
    ensures r.Err? ==> (r.error == NotPayable <==> env.value > 0)
    ensures r.Err? ==> r.error in {NotPayable, InvalidAdmin}
    ensures r.Ok? ==> IsAdmin(r.value.next, newAdmin)
    ensures r.Ok? ==> OnlyAdminEntryChanged(s, r.value.next, newAdmin)
    ensures r.Ok? ==> r.value.calls == []
  {
    if PaymentRefused(env) then Err(NotPayable)
    else if !AdminGate(s, env.sender) then Err(InvalidAdmin)
    else Ok(Step(s.(projectAdmin := s.projectAdmin[newAdmin := true]), []))
  }

  /** `removeAdmin(removeAdmin)`: not payable, admin only, and never on oneself; the
      target's entry is kept but set to false. */
  function RemoveAdmin(s: State, env: Env, target: Address): (r: Result<Step, Error>)
    ensures r.Err? <==> env.value > 0 || !IsAdmin(s, env.sender) || env.sender == target
    ensures r.Err? ==> (r.error == NotPayable <==> env.value > 0)
    ensures r.Err? && env.value == 0 ==> (r.error == InvalidAdmin <==> !IsAdmin(s, env.sender))
    ensures r.Err? ==> r.error in {NotPayable, InvalidAdmin, CannotRemoveItself}
    ensures r.Ok? ==> target in r.value.next.projectAdmin && !IsAdmin(r.value.next, target)
    ensures r.Ok? ==> IsAdmin(r.value.next, env.sender)
    ensures r.Ok? ==> OnlyAdminEntryChanged(s, r.value.next, target)
    ensures r.Ok? ==> r.value.calls == []
  {
    if PaymentRefused(env) then Err(NotPayable)
    else if !AdminGate(s, env.sender) then Err(InvalidAdmin)
    else if env.sender == target then Err(CannotRemoveItself)
    else Ok(Step(s.(projectAdmin := s.projectAdmin[target := false]), []))
  }

  /** The public entry points a transaction can invoke. */
  datatype Call =
    | DepositCall(amount: int)
    | ClaimRewardsCall
    | WithdrawAfterLockCall
    | AddAdminCall(newAdmin: Address)
    | RemoveAdminCall(target: Address)

  /** A transaction: who calls, with what value, at what time, and what. */
  datatype Tx = Tx(env: Env, call: Call)

  /** Dispatches a transaction to its operation. */
  function Execute(s: State, tx: Tx): (r: Result<Step, Error>)
  {
    match tx.call
    case DepositCall(amount) => Deposit(s, tx.env, amount)
    case ClaimRewardsCall => ClaimRewards(s, tx.env)
    case WithdrawAfterLockCall => WithdrawAfterLock(s, tx.env)
    case AddAdminCall(newAdmin) => AddAdmin(s, tx.env, newAdmin)
    case RemoveAdminCall(target) => RemoveAdmin(s, tx.env, target)
  }

  /** The state after a transaction: a reverted one changes nothing. */
  function After(s: State, tx: Tx): (t: State)
  {
    match Execute(s, tx)
    case Ok(step) => step.next
    case Err(_) => s
  }

  /** The state after a sequence of transactions, applied in order. */
  function Run(s: State, txs: seq<Tx>): (t: State)
    decreases |txs|
  {
    if |txs| == 0 then s else Run(After(s, txs[0]), txs[1..])
  }
}
