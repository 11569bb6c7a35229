/**
 * Serialisable increments with retry: each operation reads the balance, adds to it and writes it back; a writer
 * that committed in between makes it fail with 40001, after which runWithRetry starts it again, at most five times.
 */
module Retry {
  import opened Options
  import opened Sums

  const INCREMENT := 1000
  const MAX_RETRIES := 5

  // ---- The interleaved increments ----

  /** `Reading` holds the snapshot: the balance and how many commits had happened when it was taken. */
  datatype Phase =
    | Ready
    | Reading(balance: int, version: nat)
    | Writing(balance: int)
    | Succeeded
    | GaveUp

  /** `attempt` is the loop counter: how often the operation has failed with a retryable code. */
  datatype Op = Op(phase: Phase, attempt: nat)

  /** `version` counts commits. Only one open transaction can hold the row's lock. */
  datatype State = State(balance: int, version: nat, ops: map<nat, Op>)

  datatype Action =
    | Read(op: nat)
    | Write(op: nat)
    | Conflict(op: nat)
    | Commit(op: nat)
    | Spurious(op: nat)
    | Crash(op: nat)

  predicate Locked(s: State) {
    exists i | i in s.ops :: s.ops[i].phase.Writing?
  }

  predicate Open(op: Op) {
    op.phase.Reading? || op.phase.Writing?
  }

  /** The UPDATE waits while another transaction holds the row. */
  predicate Enabled(s: State, a: Action) {
    match a
    case Read(i) => i in s.ops && s.ops[i].phase.Ready?
    case Write(i) => i in s.ops && s.ops[i].phase.Reading? && !Locked(s) && s.ops[i].phase.version == s.version
    case Conflict(i) => i in s.ops && s.ops[i].phase.Reading? && !Locked(s) && s.ops[i].phase.version != s.version
    case Commit(i) => i in s.ops && s.ops[i].phase.Writing?
    case Spurious(i) => i in s.ops && Open(s.ops[i])
    case Crash(i) => i in s.ops && (Open(s.ops[i]) || s.ops[i].phase.Ready?)
  }

  /** A failed attempt is rolled back; the loop goes on until the counter passes MAX_RETRIES. */
  function Retried(op: Op): Op {
    if op.attempt + 1 > MAX_RETRIES then Op(GaveUp, op.attempt + 1) else Op(Ready, op.attempt + 1)
  }

  function Apply(s: State, a: Action): State
    requires Enabled(s, a)
  {
    match a
    case Read(i) => s.(ops := s.ops[i := s.ops[i].(phase := Reading(s.balance, s.version))])
    case Write(i) => s.(ops := s.ops[i := s.ops[i].(phase := Writing(s.ops[i].phase.balance + INCREMENT))])
    case Conflict(i) => s.(ops := s.ops[i := Retried(s.ops[i])])
    case Commit(i) => State(s.ops[i].phase.balance, s.version + 1, s.ops[i := s.ops[i].(phase := Succeeded)])
    case Spurious(i) => s.(ops := s.ops[i := Retried(s.ops[i])])
    case Crash(i) => s.(ops := s.ops[i := s.ops[i].(phase := GaveUp)])
  }

  ghost predicate Valid(s: State, acts: seq<Action>)
    decreases |acts|
  {
    acts == [] || (Enabled(s, acts[0]) && Valid(Apply(s, acts[0]), acts[1..]))
  }

  ghost function Run(s: State, acts: seq<Action>): State
    requires Valid(s, acts)
    decreases |acts|
  {
    if acts == [] then s else Run(Apply(s, acts[0]), acts[1..])
  }

  ghost predicate Init(s: State) {
    s.version == 0 && forall i | i in s.ops :: s.ops[i] == Op(Ready, 0)
  }

  ghost function SucceededOps(s: State): set<nat> {
    set i | i in s.ops && s.ops[i].phase.Succeeded?
  }

  ghost predicate Inv(s: State, initial: int) {
    && s.version == |SucceededOps(s)|
    && s.balance == initial + INCREMENT * s.version
    && (forall i | i in s.ops && s.ops[i].phase.Reading? ::
          s.ops[i].phase.version <= s.version && s.ops[i].phase.balance == initial + INCREMENT * s.ops[i].phase.version)
    && (forall i | i in s.ops && s.ops[i].phase.Writing? :: s.ops[i].phase.balance == s.balance + INCREMENT)
    && (forall i, j | i in s.ops && j in s.ops && s.ops[i].phase.Writing? && s.ops[j].phase.Writing? :: i == j)
    && (forall i | i in s.ops ::
          s.ops[i].attempt <= MAX_RETRIES + 1 && (!s.ops[i].phase.GaveUp? ==> s.ops[i].attempt <= MAX_RETRIES))
  }

  lemma SucceededStep(s: State, a: Action)
    requires Enabled(s, a)
    ensures |SucceededOps(Apply(s, a))| == |SucceededOps(s)| + if a.Commit? then 1 else 0
  {
    var s' := Apply(s, a);
    if a.Commit? {
      assert SucceededOps(s') == SucceededOps(s) + {a.op};
    } else {
      assert SucceededOps(s') == SucceededOps(s);
    }
  }

  lemma InvStep(s: State, initial: int, a: Action)
    requires Inv(s, initial) && Enabled(s, a)
    ensures Inv(Apply(s, a), initial)
  {
    SucceededStep(s, a);
  }

  lemma {:induction false} InvRun(s: State, initial: int, acts: seq<Action>)
    requires Inv(s, initial) && Valid(s, acts)
    ensures Inv(Run(s, acts), initial)
    decreases |acts|
  {
    if acts != [] {
      InvStep(s, initial, acts[0]);
      InvRun(Apply(s, acts[0]), initial, acts[1..]);
    }
  }

  /** No update is lost: the balance is the initial one plus 1000 for each operation that succeeded. */
  lemma NoLostUpdate(init: State, acts: seq<Action>)
    requires Init(init) && Valid(init, acts)
    ensures var end := Run(init, acts); end.balance == init.balance + 1000 * |SucceededOps(end)|
    ensures forall i | i in Run(init, acts).ops :: Run(init, acts).ops[i].attempt <= 6
  {
    assert SucceededOps(init) == {};
    InvRun(init, init.balance, acts);
  }

  /** An operation that has crashed, succeeded or given up takes no further step. */
  lemma EndedForGood(s: State, i: nat, a: Action)
    requires i in s.ops && Enabled(s, a)
    requires s.ops[i].phase.Succeeded? || s.ops[i].phase.GaveUp? ||
             (exists t: State :: Enabled(t, Crash(i)) && s == Apply(t, Crash(i)))
    ensures a.op != i
  {
  }

  // ---- When an operation gets through ----

  /** How often operation i failed to serialise although nothing had been committed since its snapshot. */
  ghost function SpuriousOf(acts: seq<Action>, i: nat): nat
    decreases |acts|
  {
    if acts == [] then 0 else (if acts[0] == Spurious(i) then 1 else 0) + SpuriousOf(acts[1..], i)
  }

  /** Each of i's failures but `extra` is paid for by a commit since the attempt's own snapshot. */
  ghost predicate Paid(s: State, i: nat, extra: nat)
    requires i in s.ops
  {
    && s.version == |SucceededOps(s)|
    && s.ops[i].attempt <= s.version + extra
    && (s.ops[i].phase.Reading? ==>
          s.ops[i].attempt <= s.ops[i].phase.version + extra && s.ops[i].phase.version <= s.version)
    && !s.ops[i].phase.GaveUp?
  }

  lemma OthersSucceeded(s: State, i: nat)
    requires i in s.ops && !s.ops[i].phase.Succeeded?
    ensures |SucceededOps(s)| <= |s.ops| - 1
  {
    SubsetCard(SucceededOps(s), s.ops.Keys - {i});
    assert |s.ops.Keys| == |s.ops|;
  }

  lemma SameOps(s: State, a: Action)
    requires Enabled(s, a)
    ensures Apply(s, a).ops.Keys == s.ops.Keys && |Apply(s, a).ops| == |s.ops|
  {
    assert |Apply(s, a).ops.Keys| == |Apply(s, a).ops| && |s.ops.Keys| == |s.ops|;
  }

  lemma PaidStep(s: State, a: Action, i: nat, extra: nat)
    requires i in s.ops && Paid(s, i, extra) && Enabled(s, a) && a != Crash(i)
    requires |s.ops| + extra + (if a == Spurious(i) then 1 else 0) <= MAX_RETRIES + 1
    ensures i in Apply(s, a).ops && Paid(Apply(s, a), i, extra + if a == Spurious(i) then 1 else 0)
  {
    SucceededStep(s, a);
    if a.op == i {
      OthersSucceeded(s, i);
    }
  }

  lemma {:induction false} PaidRun(s: State, acts: seq<Action>, i: nat, extra: nat)
    requires i in s.ops && Paid(s, i, extra) && Valid(s, acts) && Crash(i) !in acts
    requires |s.ops| + extra + SpuriousOf(acts, i) <= MAX_RETRIES + 1
    ensures i in Run(s, acts).ops && !Run(s, acts).ops[i].phase.GaveUp?
    decreases |acts|
  {
    if acts != [] {
      assert acts[0] in acts;
      PaidStep(s, acts[0], i, extra);
      SameOps(s, acts[0]);
      PaidRun(Apply(s, acts[0]), acts[1..], i, extra + if acts[0] == Spurious(i) then 1 else 0);
    }
  }

  /** Five retries are enough for up to six concurrent increments: whatever the interleaving, and however the others
      fail, conflicts never exhaust an operation's retries, because each needs another operation's commit. A failure
      without a conflict counts as one increment more. */
  lemma SixIncrementsNeverGiveUp(init: State, acts: seq<Action>, i: nat)
    requires Init(init) && Valid(init, acts) && i in init.ops && Crash(i) !in acts
    requires |init.ops| + SpuriousOf(acts, i) <= 6
    ensures i in Run(init, acts).ops && !Run(init, acts).ops[i].phase.GaveUp?
  {
    assert SucceededOps(init) == {};
    PaidRun(init, acts, i, 0);
  }

  // ---- runWithRetry as a loop ----

  datatype Outcome = Ok | Retryable | Fatal
  datatype Result = Returned | Threw(retryable: bool)

  /** Calls the operation until it returns, fails for good, or has failed six times. `outcome(k)` is its k-th call's. */
  method RunWithRetry(outcome: nat -> Outcome) returns (r: Result, calls: nat)
    ensures 1 <= calls <= 6
    ensures forall k | 0 <= k < calls - 1 :: outcome(k).Retryable?
    ensures r.Returned? <==> outcome(calls - 1).Ok?
    ensures r == Threw(false) <==> outcome(calls - 1).Fatal?
    ensures r == Threw(true) <==> outcome(calls - 1).Retryable?
    ensures outcome(calls - 1).Retryable? ==> calls == 6
  {
    var attempt := 0;
    calls := 0;
    while true
      invariant calls == attempt <= MAX_RETRIES
      invariant forall k | 0 <= k < calls :: outcome(k).Retryable?
      decreases MAX_RETRIES - attempt
    {
      var result := outcome(calls);
      calls := calls + 1;
      if result.Ok? {
        return Returned, calls;
      }
      if result.Fatal? {
        return Threw(false), calls;
      }
      attempt := attempt + 1;
      if attempt > MAX_RETRIES {
        return Threw(true), calls;
      }
    }
  }
}
