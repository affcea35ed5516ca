/**
 Any number of transactions taking shared locks, each along its own list, all lists following one
 global order: families by name first, then mediums by id. Locks are held until the end.
 */
module LockOrder {
  import opened Identifiers

  datatype Lock = FamilyLock(name: Id) | MediumLock(id: Id)

  predicate Before(a: Lock, b: Lock) {
    match (a, b)
    case (FamilyLock(x), FamilyLock(y)) => Precedes(x, y)
    case (FamilyLock(_), MediumLock(_)) => true
    case (MediumLock(_), FamilyLock(_)) => false
    case (MediumLock(x), MediumLock(y)) => Precedes(x, y)
  }

  lemma BeforeTransitive(a: Lock, b: Lock, c: Lock)
    requires Before(a, b) && Before(b, c)
    ensures Before(a, c)
  {
    if a.FamilyLock? && c.FamilyLock? { PrecedesTransitive(a.name, b.name, c.name); }
    if a.MediumLock? && c.MediumLock? { PrecedesTransitive(a.id, b.id, c.id); }
  }

  lemma BeforeIrreflexive(a: Lock)
    ensures !Before(a, a)
  {
    PrecedesIrreflexive(if a.FamilyLock? then a.name else a.id);
  }

  ghost predicate Ordered(locks: seq<Lock>) {
    forall i, j | 0 <= i < j < |locks| :: Before(locks[i], locks[j])
  }

  // ------------------------------------------------------------ the machine

  /** One transaction: the locks it wants, how many it has, and whether it has ended. */
  datatype Tx = Tx(wants: seq<Lock>, taken: nat, ended: bool)

  type State = seq<Tx>

  datatype Step = Take(tx: nat) | Commit(tx: nat) | Abort(tx: nat)

  predicate Holds(t: Tx, l: Lock) {
    !t.ended && t.taken <= |t.wants| && l in t.wants[..t.taken]
  }

  /** The transaction still has a lock to ask for. */
  predicate Asking(t: Tx) {
    !t.ended && t.taken < |t.wants|
  }

  /** `t` asks for a lock that `u` holds. */
  predicate WaitsFor(s: State, t: nat, u: nat) {
    && t < |s| && u < |s| && t != u
    && Asking(s[t]) && Holds(s[u], s[t].wants[s[t].taken])
  }

  ghost predicate Enabled(s: State, step: Step) {
    && step.tx < |s| && !s[step.tx].ended
    && (step.Take? ==> Asking(s[step.tx]) && forall u :: !WaitsFor(s, step.tx, u))
    && (step.Commit? ==> s[step.tx].taken == |s[step.tx].wants|)
  }

  function Next(s: State, step: Step): State
    requires step.tx < |s|
  {
    var t := s[step.tx];
    s[step.tx := if step.Take? then t.(taken := t.taken + 1) else t.(ended := true)]
  }

  function Begin(wanted: seq<seq<Lock>>): State {
    seq(|wanted|, i requires 0 <= i < |wanted| => Tx(wanted[i], 0, false))
  }

  /** The states a run visits: each step is enabled where it is taken. */
  ghost predicate Run(s: State, steps: seq<Step>, final: State)
    decreases |steps|
  {
    if steps == [] then s == final
    else Enabled(s, steps[0]) && Run(Next(s, steps[0]), steps[1..], final)
  }

  ghost predicate Sound(s: State) {
    && (forall t | 0 <= t < |s| :: s[t].taken <= |s[t].wants| && Ordered(s[t].wants))
    && (forall t, u, l | 0 <= t < u < |s| && Holds(s[t], l) :: !Holds(s[u], l))
  }

  lemma TakenLock(s: State, step: Step, t: nat, l: Lock)
    requires Sound(s) && Enabled(s, step) && t < |s| && Holds(Next(s, step)[t], l)
    ensures Holds(s[t], l) || (step == Take(t) && l == s[t].wants[s[t].taken])
  {
    var w, k := s[t].wants, s[t].taken;
    if step == Take(t) { assert w[..k + 1] == w[..k] + [w[k]]; }
  }

  /** No lock is ever held twice, in any reachable state. */
  lemma StepKeepsSound(s: State, step: Step)
    requires Sound(s) && Enabled(s, step)
    ensures Sound(Next(s, step))
  {
    var s' := Next(s, step);
    forall t, u, l | 0 <= t < u < |s'| && Holds(s'[t], l) ensures !Holds(s'[u], l) {
      assert step == Take(t) ==> !WaitsFor(s, t, u);
      assert step == Take(u) ==> !WaitsFor(s, u, t);
      TakenLock(s, step, t, l);
      if Holds(s'[u], l) {
        TakenLock(s, step, u, l);
        assert false;
      }
    }
  }

  lemma {:induction false} RunKeepsSound(s: State, steps: seq<Step>, final: State)
    requires Sound(s) && Run(s, steps, final)
    ensures Sound(final)
    decreases |steps|
  {
    if steps != [] {
      StepKeepsSound(s, steps[0]);
      RunKeepsSound(Next(s, steps[0]), steps[1..], final);
    }
  }

  // ------------------------------------------------------------ no deadlock

  /** A waiting chain climbs the order: the holder, if it waits too, asks for a later lock. */
  lemma WaitClimbs(s: State, t: nat, u: nat)
    requires Sound(s) && WaitsFor(s, t, u) && Asking(s[u])
    ensures Before(s[t].wants[s[t].taken], s[u].wants[s[u].taken])
  {
    var w := s[u].wants;
    var i :| 0 <= i < s[u].taken && w[i] == s[t].wants[s[t].taken];
  }

  ghost predicate Chain(s: State, chain: seq<nat>) {
    && |chain| >= 2
    && (forall i | 0 <= i < |chain| :: chain[i] < |s|)
    && (forall i | 0 <= i < |chain| - 1 :: WaitsFor(s, chain[i], chain[i + 1]))
  }

  lemma {:induction false} ChainClimbs(s: State, chain: seq<nat>)
    requires Sound(s) && Chain(s, chain) && Asking(s[chain[|chain| - 1]])
    ensures WaitsFor(s, chain[0], chain[1])
    ensures Before(s[chain[0]].wants[s[chain[0]].taken], s[chain[|chain| - 1]].wants[s[chain[|chain| - 1]].taken])
  {
    var n := |chain| - 1;
    WaitClimbs(s, chain[n - 1], chain[n]);
    if n > 1 {
      var front := chain[..n];
      assert WaitsFor(s, chain[n - 1], chain[n]);
      ChainClimbs(s, front);
      BeforeTransitive(s[chain[0]].wants[s[chain[0]].taken],
                       s[chain[n - 1]].wants[s[chain[n - 1]].taken],
                       s[chain[n]].wants[s[chain[n]].taken]);
    }
  }

  /** The wait-for relation has no cycle. */
  lemma NoWaitCycle(s: State, chain: seq<nat>)
    requires Sound(s) && Chain(s, chain)
    ensures chain[0] != chain[|chain| - 1]
  {
    assert WaitsFor(s, chain[0], chain[1]);
    if chain[0] == chain[|chain| - 1] {
      ChainClimbs(s, chain);
      BeforeIrreflexive(s[chain[0]].wants[s[chain[0]].taken]);
    }
  }

  /** Following waits from `t` within `open` reaches a transaction that can take a step of its own. */
  lemma {:induction false} FindMover(s: State, t: nat, open: set<nat>) returns (step: Step)
    requires Sound(s) && t < |s| && !s[t].ended && t in open
    requires forall x | 0 <= x < |s| && Asking(s[x]) && x !in open ::
               Asking(s[t]) ==> Before(s[x].wants[s[x].taken], s[t].wants[s[t].taken])
    ensures Enabled(s, step) && !step.Abort?
    decreases open
  {
    if !Asking(s[t]) {
      return Commit(t);
    }
    if forall u :: !WaitsFor(s, t, u) {
      return Take(t);
    }
    var u: nat :| WaitsFor(s, t, u);
    if !Asking(s[u]) {
      return Commit(u);
    }
    WaitClimbs(s, t, u);
    if u !in open {
      var a, b := s[t].wants[s[t].taken], s[u].wants[s[u].taken];
      BeforeTransitive(a, b, a);
      BeforeIrreflexive(a);
    }
    forall x | 0 <= x < |s| && Asking(s[x]) && x !in open - {t}
      ensures Before(s[x].wants[s[x].taken], s[u].wants[s[u].taken])
    {
      if x != t {
        BeforeTransitive(s[x].wants[s[x].taken], s[t].wants[s[t].taken], s[u].wants[s[u].taken]);
      }
    }
    step := FindMover(s, u, open - {t});
  }

  function UpTo(n: nat): (r: set<nat>)
    ensures forall x: nat :: x in r <==> x < n
  {
    if n == 0 then {} else UpTo(n - 1) + {n - 1}
  }

  /** While any transaction is unfinished, some unfinished one can take or commit: no deadlock. */
  lemma NeverStuck(s: State, t: nat) returns (step: Step)
    requires Sound(s) && t < |s| && !s[t].ended
    ensures Enabled(s, step) && !step.Abort?
  {
    step := FindMover(s, t, UpTo(|s|));
  }

  // ------------------------------------------------------------ everything finishes

  function Left(t: Tx): nat {
    if t.ended || t.taken > |t.wants| then 0 else |t.wants| - t.taken + 1
  }

  /** The locks still to take, counting one more for each transaction still to end. */
  function Remaining(s: State): nat {
    if s == [] then 0 else Remaining(s[..|s| - 1]) + Left(s[|s| - 1])
  }

  lemma {:induction false} RemainingUpdate(s: State, i: nat, t: Tx)
    requires i < |s|
    ensures Remaining(s[i := t]) == Remaining(s) - Left(s[i]) + Left(t)
  {
    var n := |s| - 1;
    if i < n {
      RemainingUpdate(s[..n], i, t);
      assert s[i := t][..n] == s[..n][i := t];
    } else {
      assert s[i := t][..n] == s[..n];
    }
  }

  /** A run is never longer than the count it starts with. */
  lemma {:induction false} RunIsBounded(s: State, steps: seq<Step>, final: State)
    requires Sound(s) && Run(s, steps, final)
    ensures |steps| + Remaining(final) <= Remaining(s)
    decreases |steps|
  {
    if steps != [] {
      var i := steps[0].tx;
      StepKeepsSound(s, steps[0]);
      RemainingUpdate(s, i, Next(s, steps[0])[i]);
      RunIsBounded(Next(s, steps[0]), steps[1..], final);
    }
  }

  ghost predicate AllEnded(s: State) {
    forall t | 0 <= t < |s| :: s[t].ended
  }

  /** From any reachable state every transaction can still take its locks and commit. */
  lemma {:induction false} AllFinish(s: State) returns (steps: seq<Step>, final: State)
    requires Sound(s)
    ensures Run(s, steps, final) && AllEnded(final)
    ensures forall i | 0 <= i < |steps| :: !steps[i].Abort?
    decreases Remaining(s)
  {
    if AllEnded(s) {
      return [], s;
    }
    var t :| 0 <= t < |s| && !s[t].ended;
    var step := NeverStuck(s, t);
    StepKeepsSound(s, step);
    RemainingUpdate(s, step.tx, Next(s, step)[step.tx]);
    var rest, last := AllFinish(Next(s, step));
    steps, final := [step] + rest, last;
  }

  lemma BeginIsSound(wanted: seq<seq<Lock>>)
    requires forall i | 0 <= i < |wanted| :: Ordered(wanted[i])
    ensures Sound(Begin(wanted))
  {}

  /** Transactions whose lists follow the order are free of deadlock in every state a run reaches. */
  lemma OrderedLocksNeverDeadlock(wanted: seq<seq<Lock>>, steps: seq<Step>, s: State)
    requires forall i | 0 <= i < |wanted| :: Ordered(wanted[i])
    requires Run(Begin(wanted), steps, s)
    ensures forall chain | Chain(s, chain) :: chain[0] != chain[|chain| - 1]
    ensures AllEnded(s) || exists step :: Enabled(s, step) && !step.Abort?
    ensures |steps| + Remaining(s) <= Remaining(Begin(wanted))
  {
    BeginIsSound(wanted);
    RunKeepsSound(Begin(wanted), steps, s);
    RunIsBounded(Begin(wanted), steps, s);
    forall chain | Chain(s, chain) ensures chain[0] != chain[|chain| - 1] {
      NoWaitCycle(s, chain);
    }
    if !AllEnded(s) {
      var t :| 0 <= t < |s| && !s[t].ended;
      var step := NeverStuck(s, t);
    }
  }
}
