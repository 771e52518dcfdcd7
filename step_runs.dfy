/** A run of a flow's steps as both executors perform it: screen after
    screen, step after step, stopping at the first failing step. The
    keyword engine is a parameter: it gives the outcome of the k-th
    keyword executed in the session. */
module StepRuns {
  import opened Text
  import opened Steps

  /** A session's keyword engine: the k-th keyword of the session runs on
      the page as it then is. */
  type Engine<!L> = (nat, Step<L>) -> Outcome

  /** The k-th keyword of the session succeeds on step st. */
  predicate StepOk<L>(exec: Engine<L>, st: Step<L>, k: nat) {
    exec(k, st).success
  }

  /** The first failing step of a run: its screen, its position within
      that screen (both counted from 0) and the keyword's message. */
  datatype StepFault = StepFault(screen: nat, step: nat, message: string)

  /** How far a run got: the failing step, if any, and how many keywords
      were executed in the session. */
  datatype FlowResult = FlowResult(failure: Option<StepFault>, ran: nat)

  /** Runs the flow from step i of screen j on, the first keyword being
      the session's k-th: a screen's steps in order, then the next screen,
      up to and including the first failing step, which stops the flow. */
  function RunFrom<L>(exec: Engine<L>, screens: seq<seq<Step<L>>>, j: nat, i: nat, k: nat): (r: FlowResult)
    requires j <= |screens| && (j < |screens| ==> i <= |screens[j]|)
    ensures k <= r.ran
    ensures r.failure.Some? ==> j <= r.failure.value.screen < |screens| && r.failure.value.step < |screens[r.failure.value.screen]|
    decreases |screens| - j, if j < |screens| then |screens[j]| - i else 0
  {
    if j == |screens| then FlowResult(None, k)
    else if i == |screens[j]| then RunFrom(exec, screens, j + 1, 0, k)
    else
      var o := exec(k, screens[j][i]);
      if !o.success then FlowResult(Some(StepFault(j, i, o.message)), k + 1)
      else RunFrom(exec, screens, j, i + 1, k + 1)
  }

  /** All steps of the screens, in execution order. */
  function Flatten<L>(screens: seq<seq<Step<L>>>): (all: seq<Step<L>>)
    ensures screens == [] ==> all == []
  {
    if screens == [] then [] else screens[0] + Flatten(screens[1..])
  }


  /** A run that passes from step i of screen j had every later step of
      that screen succeed. */
  lemma {:induction false} PassedScreenSteps<L>(exec: Engine<L>, screens: seq<seq<Step<L>>>, j: nat, i: nat, k: nat)
    requires j < |screens| && i <= |screens[j]|
    requires RunFrom(exec, screens, j, i, k).failure.None?
    ensures forall n :: i <= n < |screens[j]| ==> StepOk(exec, screens[j][n], k + (n - i))
    decreases |screens[j]| - i
  {
    if i < |screens[j]| {
      PassedScreenSteps(exec, screens, j, i + 1, k + 1);
      assert forall n :: i + 1 <= n < |screens[j]| ==> StepOk(exec, screens[j][n], k + 1 + (n - (i + 1)));
    }
  }

  /** When the rest of screen j succeeds, the run carries on with the next
      screen, all of screen j's keywords having run. */
  lemma {:induction false} ScreenCompletes<L>(exec: Engine<L>, screens: seq<seq<Step<L>>>, j: nat, i: nat, k: nat)
    requires j < |screens| && i <= |screens[j]|
    requires forall n :: i <= n < |screens[j]| ==> StepOk(exec, screens[j][n], k + (n - i))
    ensures RunFrom(exec, screens, j, i, k) == RunFrom(exec, screens, j + 1, 0, k + (|screens[j]| - i))
    decreases |screens[j]| - i
  {
    if i < |screens[j]| {
      assert StepOk(exec, screens[j][i], k + (i - i));
      forall n | i + 1 <= n < |screens[j]|
        ensures StepOk(exec, screens[j][n], k + 1 + (n - (i + 1)))
      {
        assert k + 1 + (n - (i + 1)) == k + (n - i);
      }
      ScreenCompletes(exec, screens, j, i + 1, k + 1);
    }
  }

  /** When step n is the first failing step of screen j, the flow stops
      there with that keyword's message, and no later keyword runs. */
  lemma {:induction false} FailsAt<L>(exec: Engine<L>, screens: seq<seq<Step<L>>>, j: nat, i: nat, k: nat, n: nat)
    requires j < |screens| && i <= n < |screens[j]|
    requires forall m :: i <= m < n ==> StepOk(exec, screens[j][m], k + (m - i))
    requires !StepOk(exec, screens[j][n], k + (n - i))
    ensures RunFrom(exec, screens, j, i, k)
            == FlowResult(Some(StepFault(j, n, exec(k + (n - i), screens[j][n]).message)), k + (n - i) + 1)
    decreases n - i
  {
    if i < n {
      assert StepOk(exec, screens[j][i], k + (i - i));
      forall m | i + 1 <= m < n
        ensures StepOk(exec, screens[j][m], k + 1 + (m - (i + 1)))
      {
        assert k + 1 + (m - (i + 1)) == k + (m - i);
      }
      assert k + 1 + (n - (i + 1)) == k + (n - i);
      FailsAt(exec, screens, j, i + 1, k + 1, n);
    }
  }

  /** Flattening distributes over a leading screen. */
  lemma FlattenFrom<L>(screens: seq<seq<Step<L>>>, j: nat)
    requires j < |screens|
    ensures Flatten(screens[j..]) == screens[j] + Flatten(screens[j + 1..])
  {
    assert screens[j..][1..] == screens[j + 1..];
  }

  /** Every step of `steps` succeeds, the first as the session's k-th keyword. */
  predicate AllOk<L>(exec: Engine<L>, steps: seq<Step<L>>, k: nat) {
    forall n :: 0 <= n < |steps| ==> StepOk(exec, steps[n], k + n)
  }

  /** A flow passes exactly when every step of every screen succeeds, the
      steps numbered across the whole flow. */
  lemma {:induction false} FlowPassIff<L>(exec: Engine<L>, screens: seq<seq<Step<L>>>, j: nat, k: nat)
    requires j <= |screens|
    ensures RunFrom(exec, screens, j, 0, k).failure.None? <==> AllOk(exec, Flatten(screens[j..]), k)
    decreases |screens| - j
  {
    if j < |screens| {
      var a := screens[j];
      FlattenFrom(screens, j);
      AllOkSplit(exec, a, Flatten(screens[j + 1..]), k);
      FlowPassIff(exec, screens, j + 1, k + |a|);
      if RunFrom(exec, screens, j, 0, k).failure.None? {
        PassedScreenSteps(exec, screens, j, 0, k);
        assert AllOk(exec, a, k);
      }
      if AllOk(exec, a, k) {
        ScreenCompletes(exec, screens, j, 0, k);
      }
    }
  }

  /** The whole flow passes exactly when every one of its steps succeeds. */
  lemma WholeFlowPassIff<L>(exec: Engine<L>, screens: seq<seq<Step<L>>>)
    ensures RunFrom(exec, screens, 0, 0, 0).failure.None? <==>
            forall n :: 0 <= n < |Flatten(screens)| ==> StepOk(exec, Flatten(screens)[n], n)
  {
    assert screens[0..] == screens;
    FlowPassIff(exec, screens, 0, 0);
  }

  /** Success of a concatenation of steps, one part after the other. */
  lemma AllOkSplit<L>(exec: Engine<L>, a: seq<Step<L>>, b: seq<Step<L>>, k: nat)
    ensures AllOk(exec, a + b, k) <==> AllOk(exec, a, k) && AllOk(exec, b, k + |a|)
  {
    if AllOk(exec, a, k) && AllOk(exec, b, k + |a|) {
      forall n | 0 <= n < |a + b|
        ensures StepOk(exec, (a + b)[n], k + n)
      {
        if n >= |a| {
          assert (a + b)[n] == b[n - |a|];
        } else {
          assert (a + b)[n] == a[n];
        }
      }
    }
    if AllOk(exec, a + b, k) {
      forall n | 0 <= n < |b|
        ensures StepOk(exec, b[n], k + |a| + n)
      {
        assert (a + b)[|a| + n] == b[n];
      }
      forall n | 0 <= n < |a|
        ensures StepOk(exec, a[n], k + n)
      {
        assert (a + b)[n] == a[n];
      }
    }
  }

  /** When the n-th step of the flow (counted across screens) is the first
      to fail, the run stops right after it, with its message: exactly
      n + 1 keywords run. */
  lemma {:induction false} FirstFailureFrom<L>(exec: Engine<L>, screens: seq<seq<Step<L>>>, j: nat, k: nat, n: nat)
    requires j <= |screens| && n < |Flatten(screens[j..])|
    requires forall m :: 0 <= m < n ==> StepOk(exec, Flatten(screens[j..])[m], k + m)
    requires !StepOk(exec, Flatten(screens[j..])[n], k + n)
    ensures RunFrom(exec, screens, j, 0, k).ran == k + n + 1
    ensures RunFrom(exec, screens, j, 0, k).failure.Some?
    ensures RunFrom(exec, screens, j, 0, k).failure.value.message == exec(k + n, Flatten(screens[j..])[n]).message
    decreases |screens| - j
  {
    if j < |screens| {
      FlattenFrom(screens, j);
      var a := screens[j];
      var rest := Flatten(screens[j + 1..]);
      if n < |a| {
        forall m | 0 <= m < n
          ensures StepOk(exec, a[m], k + (m - 0))
        {
          assert (a + rest)[m] == a[m];
        }
        assert (a + rest)[n] == a[n];
        FailsAt(exec, screens, j, 0, k, n);
      } else {
        forall m | 0 <= m < |a|
          ensures StepOk(exec, a[m], k + (m - 0))
        {
          assert (a + rest)[m] == a[m];
        }
        ScreenCompletes(exec, screens, j, 0, k);
        forall m | 0 <= m < n - |a|
          ensures StepOk(exec, rest[m], k + |a| + m)
        {
          assert (a + rest)[|a| + m] == rest[m];
        }
        assert (a + rest)[n] == rest[n - |a|];
        FirstFailureFrom(exec, screens, j + 1, k + |a|, n - |a|);
      }
    }
  }

  /** The same, from the start of the flow. */
  lemma FirstFailure<L>(exec: Engine<L>, screens: seq<seq<Step<L>>>, n: nat)
    requires n < |Flatten(screens)|
    requires forall m :: 0 <= m < n ==> StepOk(exec, Flatten(screens)[m], m)
    requires !StepOk(exec, Flatten(screens)[n], n)
    ensures RunFrom(exec, screens, 0, 0, 0).ran == n + 1
    ensures RunFrom(exec, screens, 0, 0, 0).failure.Some?
    ensures RunFrom(exec, screens, 0, 0, 0).failure.value.message == exec(n, Flatten(screens)[n]).message
  {
    assert screens[0..] == screens;
    FirstFailureFrom(exec, screens, 0, 0, n);
  }
}
