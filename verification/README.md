# NulsLock ledger and reentrancy latch in Dafny

This project models the two small state machines of the NULS lock contract:

- **NulsLock** (`src/main/java/NulsLock.java`). This is a contract that accepts NULS deposits. It records each depositor's principal (`userBalance`) and unlock time (`userLockTime`). It keeps an admin registry (`projectAdmin`), and only admins may call the two vault withdrawals.
- **ReentrancyGuard** (`src/main/java/ReentrancyGuard.java`). This is a one-boolean latch: entering fails while the latch is set, and closing clears it.

Each public operation is a pure function from a state and a call environment to a `Result`.
- `Ok(Step(next, calls))` holds the successor state and the outbound vault calls made.
- `Err(kind)` is a failed `require`. A reverted call changes no state.

The environment `Env` stands in for the virtual machine's `Msg.sender()`, `Msg.value()` and `Block.timestamp()`. Calls to the aiNULS deposit contract are recorded as `VaultCall` values: target, method name and attached value. What they return, and what they do on the other side, is not modelled.

Files:
- `results.dfy`: the `Result` and `Option` types.
- `reentrancy_guard.dfy`: module `ReentrancyGuard`, the latch and its properties.
- `nuls_lock.dfy`: module `NulsLock`, which has the state, the operations, and `Execute`/`After`/`Run` over transaction sequences.
- `nuls_lock_properties.dfy`: module `NulsLockProperties`, lemmas about single operations and about whole transaction sequences.

## Behaviour modelled as the code is written

The code has several defects. The model follows the code as written and states each defect as a property:

- The constructor assigns its deposit-contract parameter to itself (`NulsLock.java:55`). So `aiNULSDepositContract` stays null (`None`) and nothing ever sets it. `NulsLockProperties.VaultCallsHaveNoTarget` proves that every vault call made from a constructed contract is addressed to an unset contract. On the real virtual machine such a call would fail on the null reference. The model records the call instead.
- `deposit` ignores the `lockTime` field. It always writes `timestamp + 2*365*24*60*60 = 63072000` seconds (lines 91 and 95). See `NulsLockProperties.DepositIgnoresConfiguredLockTime`.
- `amount` is a signed integer and nothing checks its sign. A negative amount passes the payment check and lowers the sender's balance. See `NulsLockProperties.NegativeDepositLowersBalance`.
- Several lines do not compile, so the model follows their evident intent:
  - `getUserBalance` is declared to return `Address` (line 64). The model treats it as a balance read.
  - Lines 91 and 95 `put` the `long` value `Block.timestamp() + (2 * 365 * 24 * 60 * 60)` into `userLockTime`, which is a `Map<Address, BigInteger>` (line 48). Java does not convert a `long` to a `BigInteger` implicitly. The model stores the sum as an unbounded integer, as if it were converted with `BigInteger.valueOf`.
  - `from` and `recipient` are undefined at line 98; `from`, `recipient` and `amount` are undefined at lines 107 and 117. The model records each call with its attached value but without its argument strings.

Only `deposit` and `_payable` are annotated `@Payable` (lines 74 and 83). The NULS virtual machine refuses a call that attaches NULS to any other method before its body runs; the comment at lines 70-73 relies on this rule. So `claimRewards`, `withdrawAfterLock`, `addAdmin` and `removeAdmin` revert with `NotPayable` first when the attached value is positive, before their admin check.

The code does less than a lock contract of this kind usually does. The model follows the code:

- The code has no pause check, no staking threshold, no lock check on withdrawal and no use of the reentrancy guard in `NulsLock`. The `paused` field keeps its initial value 2 ("active") forever.
- Apart from the payment refusal, `withdrawAfterLock` is gated on admin rights only. It reads neither the caller's balance nor its unlock time, and pays nothing to the caller. See `NulsLockProperties.WithdrawAfterLockIgnoresLock`.
- The last admin can never be removed. An admin cannot remove itself, so the admin who removes another admin keeps its rights. `NulsLockProperties.AlwaysAnAdmin` proves that every reachable state has an admin.

## Model

| member | source | states |
|---|---|---|
| ReentrancyGuard.New | src/main/java/ReentrancyGuard.java:12-14 | a freshly constructed guard has status false, so the first entrance succeeds |
| ReentrancyGuard.SetEntrance | src/main/java/ReentrancyGuard.java:16-21 | reverts with "ReentrancyGuard Reverted" exactly when the status is already set; otherwise the status becomes true |
| ReentrancyGuard.SetClosure | src/main/java/ReentrancyGuard.java:23-25 | from any state the status becomes false, the guard is again the freshly constructed one, and entrance is allowed |
| ReentrancyGuard.GetReentrancyStatus | src/main/java/ReentrancyGuard.java:27-29 | returns the latch's current status, true exactly for a guard whose section is open; a pure read that leaves the guard unchanged |
| ReentrancyGuard.ClosureIdempotent | src/main/java/ReentrancyGuard.java:23-25 | closing twice gives the same guard as closing once |
| ReentrancyGuard.EntranceThenClosure | src/main/java/ReentrancyGuard.java:16-25 | entrance then closure on an open guard returns it to the constructed state, ready for another entrance |
| ReentrancyGuard.DoubleEntranceReverts | src/main/java/ReentrancyGuard.java:16-21 | after an entrance, a second entrance without a closure always reverts and leaves the status set |
| ReentrancyGuard.StatusReflectsLastOperation | src/main/java/ReentrancyGuard.java:16-29 | after any sequence of entrances and closures, getReentrancyStatus reports whether the last operation was an entrance (the initial status if there was none) |
| ReentrancyGuard.EntranceAllowedIffClosedLast | src/main/java/ReentrancyGuard.java:12-25 | from a fresh guard, an entrance succeeds if and only if no entrance has happened since the last closure |
| NulsLock.Construct | src/main/java/NulsLock.java:53-61 | the deposit-contract field stays null; aiNULS and lockTime are stored; the only admin is admin_; every balance reads 0 and no unlock time is recorded |
| NulsLock.GetUserBalance | src/main/java/NulsLock.java:64-68 | an address that never deposited reads 0; otherwise the result is the stored principal |
| NulsLock.IsAdmin | src/main/java/NulsLock.java:150-154 | an absent address reads false; otherwise the result is the stored flag; it agrees exactly with the present-and-true gate of the privileged operations |
| NulsLock.Deposit | src/main/java/NulsLock.java:84-101 | reverts with "Invalid Amount sent" if and only if the attached value is below amount; on success the sender's balance is the prior balance (0 if absent) plus amount, its unlock time is now + 63072000, only the sender's two entries change, and one deposit call carrying amount goes to the deposit contract |
| NulsLock.AdminWithdraw | src/main/java/NulsLock.java:103-121 | the gate-and-call body shared by claimRewards and withdrawAfterLock: reverts if and only if NULS is attached (NotPayable, checked first, as neither method is @Payable) or the caller is not an admin ("Invalid Admin"); on success the state is unchanged and one withdraw call with nothing attached goes to the deposit contract |
| NulsLock.ClaimRewards | src/main/java/NulsLock.java:103-111 | reverts if and only if NULS is attached to this non-payable method (NotPayable, checked first) or the caller is not an admin ("Invalid Admin"); on success the state is unchanged and one withdraw call with nothing attached is made |
| NulsLock.WithdrawAfterLock | src/main/java/NulsLock.java:113-121 | reverts if and only if NULS is attached to this non-payable method (NotPayable, checked first) or the caller is not an admin ("Invalid Admin"); on success the state is unchanged and one withdraw call with nothing attached is made |
| NulsLock.AddAdmin | src/main/java/NulsLock.java:123-129 | reverts if and only if NULS is attached to this non-payable method (NotPayable, checked first) or the caller is not an admin ("Invalid Admin"); on success newAdmin is an admin and no other entry or field changes |
| NulsLock.RemoveAdmin | src/main/java/NulsLock.java:131-138 | reverts if and only if NULS is attached to this non-payable method (NotPayable, checked first), the caller is not an admin ("Invalid Admin", checked next) or the target is the caller ("Can't remove itself"); on success the target's entry is kept but reads false, the caller stays an admin, and nothing else changes |
| NulsLockProperties.ShortPaymentReverts | src/main/java/NulsLock.java:86 | a deposit with too little value attached reverts with InvalidAmountSent and leaves the state as it was |
| NulsLockProperties.NegativeDepositLowersBalance | src/main/java/NulsLock.java:84-93 | a negative amount is accepted and lowers the sender's recorded balance |
| NulsLockProperties.DepositIgnoresConfiguredLockTime | src/main/java/NulsLock.java:88-96 | the unlock time a deposit writes is timestamp + 63072000 whatever the configured lockTime |
| NulsLockProperties.SecondDepositResetsLock | src/main/java/NulsLock.java:88-96 | two deposits by one sender add both amounts, and the unlock time is counted from the second deposit |
| NulsLockProperties.AddAdminIdempotent | src/main/java/NulsLock.java:123-128 | repeating a successful addAdmin succeeds and changes nothing more |
| NulsLockProperties.SelfRemovalAlwaysReverts | src/main/java/NulsLock.java:131-134 | removeAdmin with the caller as target always reverts, with "Can't remove itself" when the caller is an admin attaching nothing |
| NulsLockProperties.RemovedAdminLosesPrivilege | src/main/java/NulsLock.java:103-138 | once removed, an address fails addAdmin, removeAdmin, claimRewards and withdrawAfterLock; with nothing attached, each fails at the admin gate with "Invalid Admin" |
| NulsLockProperties.WithdrawAfterLockIgnoresLock | src/main/java/NulsLock.java:113-121 | a non-admin depositor whose lock has expired cannot withdraw; an admin attaching nothing can call withdrawAfterLock before its own lock expires; no balance moves |
| NulsLockProperties.StepBalance | src/main/java/NulsLock.java:84-138 | one transaction changes a user's balance by the amount of an accepted deposit by that user, and by nothing otherwise |
| NulsLockProperties.StepUnlockTime | src/main/java/NulsLock.java:84-138 | one transaction rewrites a user's unlock time exactly when it is an accepted deposit by that user |
| NulsLockProperties.BalanceIsSumOfDeposits | src/main/java/NulsLock.java:88-96 | over any transaction sequence, a user's balance grows by exactly the sum of that user's accepted deposit amounts |
| NulsLockProperties.UnlockTimeFromLastDeposit | src/main/java/NulsLock.java:88-96 | over any transaction sequence, a user's unlock time is 63072000 s after its last accepted deposit, and untouched if it made none |
| NulsLockProperties.FreshBalanceIsSumOfDeposits | src/main/java/NulsLock.java:53-96 | from construction, a user's balance equals the sum of its accepted deposit amounts |
| NulsLockProperties.StepKeepsAnAdmin | src/main/java/NulsLock.java:123-137 | if some address is an admin before a transaction, some address is an admin after it |
| NulsLockProperties.AdminSurvivesRun | src/main/java/NulsLock.java:123-137 | a registry with an admin keeps an admin through any transaction sequence |
| NulsLockProperties.AlwaysAnAdmin | src/main/java/NulsLock.java:53-137 | every state reachable from construction has at least one admin |
| NulsLockProperties.StepKeepsAccountsPaired | src/main/java/NulsLock.java:88-96 | every transaction keeps the balance map and the lock-time map over the same set of accounts |
| NulsLockProperties.AccountsStayPaired | src/main/java/NulsLock.java:88-96 | starting from a state whose balance and lock-time maps cover the same accounts, they still do after any transaction sequence |
| NulsLockProperties.FreshAccountsPaired | src/main/java/NulsLock.java:53-96 | from construction, every account with a recorded balance has a recorded unlock time, and the reverse, after any transaction sequence |
| NulsLockProperties.ConfigurationNeverChanges | src/main/java/NulsLock.java:32-44 | no transaction sequence changes the deposit-contract address, aiNULS, lockTime, paused or manager |
| NulsLockProperties.VaultCallsHaveNoTarget | src/main/java/NulsLock.java:53-121 | from a constructed contract, every vault call ever made is addressed to an unset deposit contract |

## Left out

- Calls into the aiNULS deposit contract are not modelled beyond a record of each call: the deposit and withdraw calls at `NulsLock.java:98-99,107-108,117-118`. Their behaviour lives in another contract.
- The private helpers `getBalAINULS`, `getBalInContract`, `safeBalanceOf`, `safeTransfer`, `safeTransferFrom` and `transferERC20` (lines 183-241) are not modelled. They are private and never called: `transferERC20` calls `safeTransfer` and `safeTransferFrom`, but nothing calls `transferERC20` or the two balance helpers.
- A call on the null deposit-contract reference is not modelled as failing. Such a call would make the real transaction fail; the model only records it.
- The empty payable receiver `_payable` (lines 75-77) is not modelled. It has no state logic.
- The view getters `getAINULSDepositCtrAddr` and `getAINULSContractAddr` (lines 162-174) are not modelled. They only return a field.
- Event emission and imports are not modelled.
- Pause gating, the staking threshold, lock enforcement and reentrancy wrapping of `NulsLock` operations are not modelled. The code does not implement them.
- NulsLock.Deposit: `Block.timestamp()` is a 64-bit `long`, but the model adds 63072000 without wrap-around. Real block times are far below the overflow point.
- `null` arguments (for example a null `newAdmin`) are not modelled. Addresses are always present.
