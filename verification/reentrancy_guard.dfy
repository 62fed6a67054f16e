/** The reentrancy latch of ReentrancyGuard.java: one boolean `status` that is
    set on entry to a guarded section and cleared on exit. */
module ReentrancyGuard {
  import opened Results

  /** The guard's only field; true while a guarded section is open. */
  datatype Guard = Guard(status: bool)

  /** The one way the guard reverts: entering while the latch is already set. */
  datatype GuardError = ReentrancyGuardReverted

  /** The operations a caller performs on the guard, in order. */
  datatype GuardOp = Enter | Close

  /** The constructor: a fresh guard is open to entry. */
  function New(): (g: Guard)
    ensures !GetReentrancyStatus(g)
    ensures SetEntrance(g).Ok?
  {
    Guard(false)
  }

  /** Reverts when the latch is set; otherwise sets it. */
  function SetEntrance(g: Guard): (r: Result<Guard, GuardError>)
    ensures r.Err? <==> GetReentrancyStatus(g)
    ensures r.Err? ==> r.error == ReentrancyGuardReverted
    ensures r.Ok? ==> GetReentrancyStatus(r.value)
  {
    if g.status then Err(ReentrancyGuardReverted) else Ok(Guard(true))
  }

  /** Clears the latch whatever its state. */
  function SetClosure(g: Guard): (g': Guard)
    ensures !GetReentrancyStatus(g')
    ensures g' == New()
    ensures SetEntrance(g').Ok?
  {
    Guard(false)
  }

  /** Reads the latch without changing it: true exactly for a guard whose
      section is open. */
  function GetReentrancyStatus(g: Guard): (b: bool)
    ensures b == g.status
    ensures b <==> g == Guard(true)
  {
    g.status
  }

  /** One operation; a reverted entrance leaves the guard as it was. */
  function Apply(g: Guard, op: GuardOp): (g': Guard)
  {
    match op
    case Enter => (match SetEntrance(g) case Ok(g') => g' case Err(_) => g)
    case Close => SetClosure(g)
  }

  /** A sequence of operations applied left to right. */
  function RunGuard(g: Guard, ops: seq<GuardOp>): (g': Guard)
    decreases |ops|
  {
    if |ops| == 0 then g else RunGuard(Apply(g, ops[0]), ops[1..])
  }

  /** Closing twice is the same as closing once. */
  lemma ClosureIdempotent(g: Guard)
    ensures SetClosure(SetClosure(g)) == SetClosure(g)
  {
  }

  /** An entrance followed by a closure brings an open guard back to its
      constructed state, ready for the next entrance. */
  lemma EntranceThenClosure(g: Guard)
    requires !GetReentrancyStatus(g)
    ensures SetEntrance(g).Ok?
    ensures SetClosure(SetEntrance(g).value) == New()
    ensures SetEntrance(SetClosure(SetEntrance(g).value)).Ok?
  {
  }

  /** Two entrances with no closure in between: the second always reverts,
      whatever state the guard started in. */
  lemma DoubleEntranceReverts(g: Guard)
    ensures Apply(Apply(g, Enter), Enter) == Apply(g, Enter)
    ensures GetReentrancyStatus(Apply(g, Enter))
    ensures SetEntrance(Apply(g, Enter)) == Err(ReentrancyGuardReverted)
  {
  }

  /** The status reports the operation performed last: set after an entrance (successful or
      reverted), clear after a closure, the initial status after nothing. */
  lemma {:induction false} StatusReflectsLastOperation(g: Guard, ops: seq<GuardOp>)
    ensures GetReentrancyStatus(RunGuard(g, ops))
         == (if |ops| == 0 then GetReentrancyStatus(g) else ops[|ops| - 1] == Enter)
    decreases |ops|
  {
    if |ops| > 0 {
      StatusReflectsLastOperation(Apply(g, ops[0]), ops[1..]);
      if |ops| > 1 {
        assert ops[1..][|ops[1..]| - 1] == ops[|ops| - 1];
      }
    }
  }

  /** From a fresh guard, an entrance succeeds exactly when no entrance has
      happened since the last closure. */
  lemma EntranceAllowedIffClosedLast(ops: seq<GuardOp>)
    ensures SetEntrance(RunGuard(New(), ops)).Ok?
        <==> (|ops| == 0 || ops[|ops| - 1] == Close)
  {
    StatusReflectsLastOperation(New(), ops);
  }
}
