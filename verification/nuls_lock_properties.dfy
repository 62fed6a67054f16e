/** Properties of the NulsLock model: single operations (reverts, lock reset,
    admin registry) and whole transaction sequences (balances are sums of
    accepted deposits, unlock times come from the last deposit, there is
    always an admin, configuration never changes). */
module NulsLockProperties {
  import opened Results
  import opened NulsLock

  // ---------------------------------------------------------------------
  // Single operations

  /** A deposit whose attached value falls short reverts and changes no state. */
  lemma ShortPaymentReverts(s: State, env: Env, amount: int)
    requires env.value < amount
    ensures Deposit(s, env, amount) == Err(InvalidAmountSent)
    ensures After(s, Tx(env, DepositCall(amount))) == s
  {
  }

  /** Nothing rejects a negative amount: it passes the payment check (the
      attached value is never negative) and lowers the sender's balance. */
  lemma NegativeDepositLowersBalance(s: State, env: Env, amount: int)
    requires amount < 0
    ensures Deposit(s, env, amount).Ok?
    ensures GetUserBalance(Deposit(s, env, amount).value.next, env.sender) < GetUserBalance(s, env.sender)
  {
  }

  /** The unlock time a deposit writes does not depend on the configured
      `lockTime` field, only on the block time. */
  lemma DepositIgnoresConfiguredLockTime(s: State, env: Env, amount: int, lockTime: int)
    requires env.value >= amount
    ensures Deposit(s.(lockTime := lockTime), env, amount).Ok?
    ensures UnlockTime(Deposit(s.(lockTime := lockTime), env, amount).value.next, env.sender)
         == UnlockTime(Deposit(s, env, amount).value.next, env.sender)
         == Some(env.timestamp + 63072000)
  {
  }

  /** A second deposit by the same sender adds to the first and replaces the
      first lock by one counted from the second deposit's time, even when
      that ends earlier than the first lock would have. */
  lemma SecondDepositResetsLock(s: State, env1: Env, a1: int, env2: Env, a2: int)
    requires env1.sender == env2.sender
    requires env1.value >= a1 && env2.value >= a2
    ensures Deposit(s, env1, a1).Ok?
    ensures Deposit(Deposit(s, env1, a1).value.next, env2, a2).Ok?
    ensures var t := Deposit(Deposit(s, env1, a1).value.next, env2, a2).value.next;
            && GetUserBalance(t, env1.sender) == GetUserBalance(s, env1.sender) + a1 + a2
            && UnlockTime(t, env1.sender) == Some(env2.timestamp + DepositLockSeconds)
  {
  }

  /** Adding an admin twice is the same as adding it once. */
  lemma AddAdminIdempotent(s: State, env: Env, newAdmin: Address)
    requires AddAdmin(s, env, newAdmin).Ok?
    ensures AddAdmin(AddAdmin(s, env, newAdmin).value.next, env, newAdmin)
         == Ok(Step(AddAdmin(s, env, newAdmin).value.next, []))
  {
    var t := AddAdmin(s, env, newAdmin).value.next;
    assert t.projectAdmin[newAdmin := true] == t.projectAdmin;
  }

  /** No admin can remove itself, whoever it is. */
  lemma SelfRemovalAlwaysReverts(s: State, env: Env)
    ensures RemoveAdmin(s, env, env.sender).Err?
    ensures IsAdmin(s, env.sender) && env.value == 0 ==> RemoveAdmin(s, env, env.sender).error == CannotRemoveItself
  {
  }

  /** A removed admin fails every privileged operation at once: with
      nothing attached, at the admin gate. */
  lemma RemovedAdminLosesPrivilege(s: State, env: Env, target: Address, env2: Env, other: Address)
    requires RemoveAdmin(s, env, target).Ok?
    requires env2.sender == target
    ensures var t := RemoveAdmin(s, env, target).value.next;
            && AddAdmin(t, env2, other).Err?
            && RemoveAdmin(t, env2, other).Err?
            && ClaimRewards(t, env2).Err?
            && WithdrawAfterLock(t, env2).Err?
    ensures var t := RemoveAdmin(s, env, target).value.next;
            env2.value == 0 ==>
            && AddAdmin(t, env2, other) == Err(InvalidAdmin)
            && RemoveAdmin(t, env2, other) == Err(InvalidAdmin)
            && ClaimRewards(t, env2) == Err(InvalidAdmin)
            && WithdrawAfterLock(t, env2) == Err(InvalidAdmin)
  {
  }

  /** `withdrawAfterLock` is gated on admin rights only: a depositor who is
      not an admin cannot call it even once its lock has expired, and an
      admin attaching nothing can call it while its own lock is still running; either way no
      balance moves. */
  lemma WithdrawAfterLockIgnoresLock(s: State, env: Env)
    ensures !IsAdmin(s, env.sender) && UnlockTime(s, env.sender).Some?
            && UnlockTime(s, env.sender).value <= env.timestamp
            ==> WithdrawAfterLock(s, env).Err?
                && (env.value == 0 ==> WithdrawAfterLock(s, env).error == InvalidAdmin)
    ensures IsAdmin(s, env.sender) && env.value == 0 && UnlockTime(s, env.sender).Some?
            && env.timestamp < UnlockTime(s, env.sender).value
            ==> WithdrawAfterLock(s, env).Ok?
    ensures WithdrawAfterLock(s, env).Ok? ==>
            WithdrawAfterLock(s, env).value.next.userBalance == s.userBalance
  {
  }

  // ---------------------------------------------------------------------
  // Transaction sequences

  /** `tx` is a deposit by `u` that passes the payment check. */
  predicate AcceptedDeposit(tx: Tx, u: Address)
  {
    tx.call.DepositCall? && tx.env.sender == u && tx.env.value >= tx.call.amount
  }

  /** The sum of the amounts of the accepted deposits by `u` in `txs`. */
  function Credited(txs: seq<Tx>, u: Address): (sum: int)
    decreases |txs|
  {
    if |txs| == 0 then 0
    else (if AcceptedDeposit(txs[0], u) then txs[0].call.amount else 0) + Credited(txs[1..], u)
  }

  /** The block time of the last accepted deposit by `u` in `txs`, if any. */
  function LastDepositTime(txs: seq<Tx>, u: Address): (t: Option<int>)
    decreases |txs|
  {
    if |txs| == 0 then None
    else
      var later := LastDepositTime(txs[1..], u);
      if later.Some? then later
      else if AcceptedDeposit(txs[0], u) then Some(txs[0].env.timestamp)
      else None
  }

  /** One transaction changes `u`'s balance by the amount of an accepted
      deposit by `u`, and by nothing otherwise. */
  lemma StepBalance(s: State, tx: Tx, u: Address)
    ensures GetUserBalance(After(s, tx), u)
         == GetUserBalance(s, u) + (if AcceptedDeposit(tx, u) then tx.call.amount else 0)
  {
  }

  /** One transaction rewrites `u`'s unlock time exactly when it is an
      accepted deposit by `u`. */
  lemma StepUnlockTime(s: State, tx: Tx, u: Address)
    ensures UnlockTime(After(s, tx), u)
         == (if AcceptedDeposit(tx, u) then Some(tx.env.timestamp + DepositLockSeconds)
             else UnlockTime(s, u))
  {
  }

  /** Over any sequence of transactions, by anyone, a user's balance grows
      by exactly the sum of that user's accepted deposits. */
  lemma {:induction false} BalanceIsSumOfDeposits(s: State, txs: seq<Tx>, u: Address)
    ensures GetUserBalance(Run(s, txs), u) == GetUserBalance(s, u) + Credited(txs, u)
    decreases |txs|
  {
    if |txs| > 0 {
      StepBalance(s, txs[0], u);
      BalanceIsSumOfDeposits(After(s, txs[0]), txs[1..], u);
    }
  }

  /** Over any sequence of transactions, a user's unlock time is two years
      after its last accepted deposit, and untouched if it made none. */
  lemma {:induction false} UnlockTimeFromLastDeposit(s: State, txs: seq<Tx>, u: Address)
    ensures UnlockTime(Run(s, txs), u)
         == (match LastDepositTime(txs, u)
             case Some(t) => Some(t + DepositLockSeconds)
             case None => UnlockTime(s, u))
    decreases |txs|
  {
    if |txs| > 0 {
      StepUnlockTime(s, txs[0], u);
      UnlockTimeFromLastDeposit(After(s, txs[0]), txs[1..], u);
    }
  }

  /** Starting from construction, a user's balance is the sum of its
      accepted deposits. */
  lemma FreshBalanceIsSumOfDeposits(d: Address, a: Address, lt: int, admin: Address, txs: seq<Tx>, u: Address)
    ensures GetUserBalance(Run(Construct(d, a, lt, admin), txs), u) == Credited(txs, u)
  {
    BalanceIsSumOfDeposits(Construct(d, a, lt, admin), txs, u);
  }

  /** One transaction never leaves the registry without an admin: if `a`
      loses its rights it was removed by another admin, who keeps them. */
  lemma StepKeepsAnAdmin(s: State, tx: Tx, a: Address) returns (b: Address)
    requires IsAdmin(s, a)
    ensures IsAdmin(After(s, tx), b)
  {
    var t := After(s, tx);
    match tx.call
    case RemoveAdminCall(target) =>
      if RemoveAdmin(s, tx.env, target).Ok? {
        b := tx.env.sender;
      } else {
        b := a;
      }
    case AddAdminCall(newAdmin) =>
      b := a;
      if AddAdmin(s, tx.env, newAdmin).Ok? && a != newAdmin {
        assert a in t.projectAdmin - {newAdmin};
        assert t.projectAdmin[a] == (t.projectAdmin - {newAdmin})[a];
      }
    case _ =>
      b := a;
  }

  /** The registry keeps an admin through any sequence of transactions. */
  lemma {:induction false} AdminSurvivesRun(s: State, txs: seq<Tx>, a: Address)
    requires IsAdmin(s, a)
    ensures exists b :: IsAdmin(Run(s, txs), b)
    decreases |txs|
  {
    if |txs| == 0 {
      assert IsAdmin(Run(s, txs), a);
    } else {
      var b := StepKeepsAnAdmin(s, txs[0], a);
      AdminSurvivesRun(After(s, txs[0]), txs[1..], b);
      assert Run(s, txs) == Run(After(s, txs[0]), txs[1..]);
    }
  }

  /** Every state reachable from construction has at least one admin: the
      last admin cannot be removed, because nobody can remove itself. */
  lemma AlwaysAnAdmin(d: Address, a: Address, lt: int, admin: Address, txs: seq<Tx>)
    ensures exists b :: IsAdmin(Run(Construct(d, a, lt, admin), txs), b)
  {
    AdminSurvivesRun(Construct(d, a, lt, admin), txs, admin);
  }

  /** The balance and lock-time maps have the same accounts. */
  predicate AccountsPaired(s: State)
  {
    s.userBalance.Keys == s.userLockTime.Keys
  }

  /** Every transaction keeps the two user maps over the same accounts. */
  lemma StepKeepsAccountsPaired(s: State, tx: Tx)
    requires AccountsPaired(s)
    ensures AccountsPaired(After(s, tx))
  {
  }

  /** Every account with a recorded balance has a recorded unlock time, in
      every state reachable from one where that holds. */
  lemma {:induction false} AccountsStayPaired(s: State, txs: seq<Tx>)
    requires AccountsPaired(s)
    ensures AccountsPaired(Run(s, txs))
    decreases |txs|
  {
    if |txs| > 0 {
      StepKeepsAccountsPaired(s, txs[0]);
      AccountsStayPaired(After(s, txs[0]), txs[1..]);
    }
  }

  /** From construction, every account with a recorded balance has a
      recorded unlock time. */
  lemma FreshAccountsPaired(d: Address, a: Address, lt: int, admin: Address, txs: seq<Tx>)
    ensures AccountsPaired(Run(Construct(d, a, lt, admin), txs))
  {
    AccountsStayPaired(Construct(d, a, lt, admin), txs);
  }

  /** The fields set at construction are never written afterwards: no
      sequence of transactions changes them. */
  lemma {:induction false} ConfigurationNeverChanges(s: State, txs: seq<Tx>)
    ensures SameConfiguration(s, Run(s, txs))
    decreases |txs|
  {
    if |txs| > 0 {
      assert SameConfiguration(s, After(s, txs[0]));
      ConfigurationNeverChanges(After(s, txs[0]), txs[1..]);
    }
  }

  /** Because the constructor never stores the deposit-contract address and
      nothing writes it later, every vault call the contract ever makes is
      addressed to an unset contract. */
  lemma VaultCallsHaveNoTarget(d: Address, a: Address, lt: int, admin: Address, txs: seq<Tx>, tx: Tx)
    requires Execute(Run(Construct(d, a, lt, admin), txs), tx).Ok?
    ensures forall c :: c in Execute(Run(Construct(d, a, lt, admin), txs), tx).value.calls ==> c.target == None
  {
    ConfigurationNeverChanges(Construct(d, a, lt, admin), txs);
  }
}
