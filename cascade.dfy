/** The cascade: restart each dependent in turn by its `pm_id`, pause after
    every restart when there is more than one dependent, and give up at the
    first restart that fails. External calls are recorded as a trace of
    actions; which restart call fails is an input. */
module Cascade {

  import opened Wrappers
  import opened Js
  import opened Discovery

  /** An external effect of the handler, in the order it is issued. */
  datatype Action = ListProcesses | Restart(pmId: JsValue) | Delay(ms: int)

  /** What one turn of the loop issues when every call succeeds. */
  function RestartStep(child: App, paced: bool, delayMs: int): seq<Action>
  {
    if paced then [Restart(child.pmId), Delay(delayMs)] else [Restart(child.pmId)]
  }

  /** The turns for `children`, one after the other. */
  function RestartSteps(children: seq<App>, paced: bool, delayMs: int): seq<Action>
    decreases |children|
  {
    if children == [] then []
    else RestartSteps(children[..|children| - 1], paced, delayMs) + RestartStep(children[|children| - 1], paced, delayMs)
  }

  /** The whole cascade: pacing is on when there is more than one dependent;
      if restart call number `failAt` fails, that call is the last action.
      A cascade only restarts and pauses (it never lists), starts with the
      first dependent's restart and takes at most two actions per dependent. */
  function CascadeTrace(children: seq<App>, delayMs: int, failAt: Option<nat>): (trace: seq<Action>)
    ensures forall j :: 0 <= j < |trace| ==> trace[j].Restart? || trace[j].Delay?
    ensures |trace| <= 2 * |children|
    ensures children == [] <==> trace == []
    ensures children != [] ==> trace[0] == Restart(children[0].pmId)
  {
    var paced := |children| > 1;
    var k := if failAt.Some? && failAt.value < |children| then failAt.value else |children|;
    PrefixShape(children, k, paced, delayMs);
    if failAt.Some? && failAt.value < |children| then
      RestartSteps(children[..failAt.value], paced, delayMs) + [Restart(children[failAt.value].pmId)]
    else
      assert children[..k] == children;
      RestartSteps(children, paced, delayMs)
  }

  /** The turns contain only restarts and pauses, one or two per dependent. */
  lemma {:induction false} RestartStepsShape(children: seq<App>, paced: bool, delayMs: int)
    ensures forall j :: 0 <= j < |RestartSteps(children, paced, delayMs)| ==>
      RestartSteps(children, paced, delayMs)[j].Restart? || RestartSteps(children, paced, delayMs)[j].Delay?
    ensures |RestartSteps(children, paced, delayMs)| == if paced then 2 * |children| else |children|
    ensures |children| == 1 ==> RestartSteps(children, paced, delayMs)[0] == Restart(children[0].pmId)
    decreases |children|
  {
    if children != [] {
      RestartStepsShape(children[..|children| - 1], paced, delayMs);
    }
  }

  /** The turns for the first k dependents only restart and pause, and
      begin with the first dependent's restart. */
  lemma PrefixShape(children: seq<App>, k: nat, paced: bool, delayMs: int)
    requires k <= |children|
    ensures forall j :: 0 <= j < |RestartSteps(children[..k], paced, delayMs)| ==>
      RestartSteps(children[..k], paced, delayMs)[j].Restart? || RestartSteps(children[..k], paced, delayMs)[j].Delay?
    ensures |RestartSteps(children[..k], paced, delayMs)| == if paced then 2 * k else k
    ensures k > 0 ==> RestartSteps(children[..k], paced, delayMs)[0] == Restart(children[0].pmId)
  {
    RestartStepsShape(children[..k], paced, delayMs);
    if k > 0 {
      RestartStepsShape(children[..1], paced, delayMs);
      RestartStepsPrefix(children[..k], 1, paced, delayMs);
      assert children[..k][..1] == children[..1];
    }
  }

  /** The turns for a prefix of the dependents are a prefix of the turns. */
  lemma {:induction false} RestartStepsPrefix(children: seq<App>, n: nat, paced: bool, delayMs: int)
    requires n <= |children|
    ensures RestartSteps(children[..n], paced, delayMs) <= RestartSteps(children, paced, delayMs)
    decreases |children|
  {
    if n < |children| {
      var m := |children| - 1;
      assert children[..m][..n] == children[..n];
      RestartStepsPrefix(children[..m], n, paced, delayMs);
    } else {
      assert children[..n] == children;
    }
  }

  /** The `pm_id`s of `children`, in order. */
  function PmIds(children: seq<App>): seq<JsValue>
  {
    seq(|children|, i requires 0 <= i < |children| => children[i].pmId)
  }

  /** The ids a trace restarts, in order. */
  function RestartedIds(trace: seq<Action>): seq<JsValue>
  {
    if trace == [] then []
    else
      var last := trace[|trace| - 1];
      RestartedIds(trace[..|trace| - 1]) + (if last.Restart? then [last.pmId] else [])
  }

  /** The durations of the pauses a trace takes, in order. */
  function Delays(trace: seq<Action>): seq<int>
  {
    if trace == [] then []
    else
      var last := trace[|trace| - 1];
      Delays(trace[..|trace| - 1]) + (if last.Delay? then [last.ms] else [])
  }

  lemma ProjectionsSnoc(trace: seq<Action>, a: Action)
    ensures RestartedIds(trace + [a]) == RestartedIds(trace) + (if a.Restart? then [a.pmId] else [])
    ensures Delays(trace + [a]) == Delays(trace) + (if a.Delay? then [a.ms] else [])
  {
  }

  lemma StepProjections(trace: seq<Action>, child: App, paced: bool, delayMs: int)
    ensures RestartedIds(trace + RestartStep(child, paced, delayMs)) == RestartedIds(trace) + [child.pmId]
    ensures Delays(trace + RestartStep(child, paced, delayMs)) == Delays(trace) + if paced then [delayMs] else []
  {
    ProjectionsSnoc(trace, Restart(child.pmId));
    if paced {
      assert trace + RestartStep(child, paced, delayMs) == (trace + [Restart(child.pmId)]) + [Delay(delayMs)];
      ProjectionsSnoc(trace + [Restart(child.pmId)], Delay(delayMs));
    }
  }

  /** Restarts go out one per dependent, by `pm_id`, in list order; pauses
      are all of the configured length, one per dependent when paced and
      none otherwise. */
  lemma {:induction false} RestartStepsProjections(children: seq<App>, paced: bool, delayMs: int)
    ensures RestartedIds(RestartSteps(children, paced, delayMs)) == PmIds(children)
    ensures Delays(RestartSteps(children, paced, delayMs)) == if paced then seq(|children|, _ => delayMs) else []
    decreases |children|
  {
    if children != [] {
      var n := |children| - 1;
      var init := children[..n];
      RestartStepsProjections(init, paced, delayMs);
      StepProjections(RestartSteps(init, paced, delayMs), children[n], paced, delayMs);
      assert PmIds(children) == PmIds(init) + [children[n].pmId];
      if paced {
        assert seq(|children|, _ => delayMs) == seq(n, _ => delayMs) + [delayMs];
      }
    }
  }

  /** When paced, restart j is action 2j and the pause right after it is
      action 2j+1: every restart, the last one included, is followed by one
      pause of the configured length. */
  lemma {:induction false} PacedLayout(children: seq<App>, delayMs: int)
    ensures |RestartSteps(children, true, delayMs)| == 2 * |children|
    ensures forall j :: 0 <= j < |children| ==>
      RestartSteps(children, true, delayMs)[2 * j] == Restart(children[j].pmId) &&
      RestartSteps(children, true, delayMs)[2 * j + 1] == Delay(delayMs)
    decreases |children|
  {
    if children != [] {
      var n := |children| - 1;
      PacedLayout(children[..n], delayMs);
    }
  }

  /** When not paced, action j is the restart of dependent j and there is
      no pause at all. */
  lemma {:induction false} UnpacedLayout(children: seq<App>, delayMs: int)
    ensures |RestartSteps(children, false, delayMs)| == |children|
    ensures forall j :: 0 <= j < |children| ==> RestartSteps(children, false, delayMs)[j] == Restart(children[j].pmId)
    decreases |children|
  {
    if children != [] {
      var n := |children| - 1;
      UnpacedLayout(children[..n], delayMs);
    }
  }

  /** A cascade in which every restart succeeds restarts exactly the
      dependents' ids in order; it pauses K times (after the last restart
      too) when there are K > 1 dependents, and never with 0 or 1. */
  lemma CascadeCompletes(children: seq<App>, delayMs: int, failAt: Option<nat>)
    requires failAt.None? || failAt.value >= |children|
    ensures RestartedIds(CascadeTrace(children, delayMs, failAt)) == PmIds(children)
    ensures Delays(CascadeTrace(children, delayMs, failAt)) ==
      if |children| > 1 then seq(|children|, _ => delayMs) else []
    ensures children == [] ==> CascadeTrace(children, delayMs, failAt) == []
    ensures |children| > 1 ==> CascadeTrace(children, delayMs, failAt)[|CascadeTrace(children, delayMs, failAt)| - 1] == Delay(delayMs)
  {
    RestartStepsProjections(children, |children| > 1, delayMs);
    if |children| > 1 {
      PacedLayout(children, delayMs);
      assert 2 * |children| - 1 == 2 * (|children| - 1) + 1;
    }
  }

  /** When restart call i fails, exactly dependents 0..i have been restarted
      (i+1 onward are never attempted), the failed restart is the last
      action (no pause follows it), and i pauses of the configured length
      were taken if paced, none otherwise. */
  lemma CascadeAborts(children: seq<App>, delayMs: int, i: nat)
    requires i < |children|
    ensures RestartedIds(CascadeTrace(children, delayMs, Some(i))) == PmIds(children[..i + 1])
    ensures CascadeTrace(children, delayMs, Some(i))[|CascadeTrace(children, delayMs, Some(i))| - 1] == Restart(children[i].pmId)
    ensures Delays(CascadeTrace(children, delayMs, Some(i))) == if |children| > 1 then seq(i, _ => delayMs) else []
  {
    var paced := |children| > 1;
    var done := RestartSteps(children[..i], paced, delayMs);
    RestartStepsProjections(children[..i], paced, delayMs);
    ProjectionsSnoc(done, Restart(children[i].pmId));
    assert PmIds(children[..i + 1]) == PmIds(children[..i]) + [children[i].pmId];
  }

  /** The `for (const child of childApps)` loop: each turn restarts one
      dependent and, when there is more than one, pauses; a failing restart
      leaves the loop (through the handler's single catch). */
  method RunCascade(children: seq<App>, delayMs: int, failAt: Option<nat>) returns (trace: seq<Action>, aborted: bool)
    ensures trace == CascadeTrace(children, delayMs, failAt)
    ensures aborted <==> failAt.Some? && failAt.value < |children|
  {
    var paced := |children| > 1;
    trace, aborted := [], false;
    var i := 0;
    while i < |children|
      invariant 0 <= i <= |children|
      invariant trace == RestartSteps(children[..i], paced, delayMs)
      invariant failAt.None? || failAt.value >= i
    {
      assert children[..i + 1][..i] == children[..i];
      trace := trace + [Restart(children[i].pmId)];
      if failAt == Some(i) {
        aborted := true;
        return;
      }
      if paced {
        trace := trace + [Delay(delayMs)];
      }
      i := i + 1;
    }
    assert children[..i] == children;
  }
}
