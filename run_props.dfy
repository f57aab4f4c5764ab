/** How bounded runs of the interpreter loop relate to each other. The facts
    are proved for a loop with any body and then read off for `Step`. */
module RunProps {
  import opened Results
  import opened Machine

  /** A loop that stops (halts or panics) within `n` rounds ends the same way
      with any larger bound. */
  lemma {:induction false} IterateStopped(step: State -> Outcome, s: State, n: nat, m: nat)
    requires !Iterate(step, s, n).Continue?
    ensures Iterate(step, s, n + m) == Iterate(step, s, n)
    decreases n
  {
    if step(s).Continue? {
      IterateStopped(step, step(s).next, n - 1, m);
    }
  }

  /** `n` rounds and then `m` more from where they left off are `n + m`
      rounds. */
  lemma {:induction false} IterateCompose(step: State -> Outcome, s: State, n: nat, m: nat)
    requires Iterate(step, s, n).Continue?
    ensures Iterate(step, s, n + m) == Iterate(step, Iterate(step, s, n).next, m)
    decreases n
  {
    if n > 0 {
      IterateCompose(step, step(s).next, n - 1, m);
    }
  }

  /** A loop that stops does so with the outcome of one round of its body, on
      some state the loop reached. */
  lemma {:induction false} IterateStopsInStep(step: State -> Outcome, s: State, n: nat) returns (last: State)
    requires !Iterate(step, s, n).Continue?
    ensures Iterate(step, s, n) == step(last)
    decreases n
  {
    if step(s).Continue? {
      last := IterateStopsInStep(step, step(s).next, n - 1);
    } else {
      last := s;
    }
  }

  /** One round that continues to `next`, then `m` more, is `m + 1` rounds. */
  lemma IterateStep(step: State -> Outcome, s: State, next: State, m: nat)
    requires step(s) == Continue(next)
    ensures Iterate(step, s, m + 1) == Iterate(step, next, m)
  {
  }

  /** A run with no iterations left is where it started. */
  lemma RunNoFuel(s: State)
    ensures Run(s, 0) == Continue(s)
  {
  }

  /** A run whose first step stops ends with that step's outcome. */
  lemma RunStopsInFirstStep(s: State, m: nat)
    requires m > 0 && !Step(s).Continue?
    ensures Run(s, m) == Step(s)
  {
  }

  /** A run whose first step continues to `next` goes on from there with one
      iteration fewer. */
  lemma RunContinues(s: State, next: State, m: nat)
    requires m > 0 && Step(s) == Continue(next)
    ensures Run(s, m) == Run(next, m - 1)
  {
  }

  /** A run that has stopped within `n` iterations ends the same way with any
      larger bound. */
  lemma RunStopped(s: State, n: nat, m: nat)
    requires !Run(s, n).Continue?
    ensures Run(s, n + m) == Run(s, n)
  {
    IterateStopped(Step, s, n, m);
  }

  /** Running `n` iterations and then `m` more from where they left off is
      running `n + m`. */
  lemma RunCompose(s: State, n: nat, m: nat)
    requires Run(s, n).Continue?
    ensures Run(s, n + m) == Run(Run(s, n).next, m)
  {
    IterateCompose(Step, s, n, m);
  }

  /** A run that halts does so on the outcome of a step that fetched a BRK. */
  lemma RunHaltsAtBrk(s: State, n: nat)
    requires Run(s, n).Halted?
    ensures exists last: State :: Step(last) == Run(s, n) && last.pc as int < MemorySize && last.mem[last.pc] == 0x00
  {
    var last := IterateStopsInStep(Step, s, n);
  }
}
