/** `handleProcessEvent`: classify the packet, list the supervisor's
    processes, pick the dependents and run the cascade. The list call and the
    whole loop sit in one try/catch, so any failure ends this packet's work
    and is only logged; the handler itself always returns normally. */
module Handler {

  import opened Wrappers
  import opened Js
  import opened Config
  import opened Classifier
  import opened Discovery
  import opened Cascade

  /** How one invocation ended. */
  datatype Outcome =
    | Ignored(verdict: Verdict)     // an early return before any external call
    | ListFailed                    // the list call rejected; the error was logged
    | NoChildren                    // no dependent found
    | Completed                     // every dependent restarted
    | RestartFailed(pmId: JsValue)  // this restart rejected; the rest were skipped

  /** The dependents found for a triggering packet in a given process list. */
  function Dependents(s: Settings, p: Packet, apps: seq<App>): seq<App>
  {
    ChildApps(s.tagKey, Name(p), apps)
  }

  /** Every external call one invocation issues, in order. `listed` is the
      list call's result (`None` when it rejects) and `failAt` the index of
      the restart call that rejects, if any. */
  /** An invocation acts at all exactly when the packet is accepted; it then
      begins with the one and only list call, and everything after it is a
      restart or a pause. */
  function EventTrace(s: Settings, p: Packet, listed: Option<seq<App>>, failAt: Option<nat>): (trace: seq<Action>)
    ensures trace == [] <==> !Classify(s, p).ParentRestart?
    ensures trace != [] ==> trace[0] == ListProcesses
    ensures forall j :: 0 < j < |trace| ==> trace[j].Restart? || trace[j].Delay?
  {
    if !Classify(s, p).ParentRestart? then []
    else if listed.None? then [ListProcesses]
    else [ListProcesses] + CascadeTrace(Dependents(s, p, listed.value), s.restartDelayMs, failAt)
  }

  method HandleProcessEvent(s: Settings, p: Packet, listed: Option<seq<App>>, failAt: Option<nat>)
    returns (trace: seq<Action>, outcome: Outcome)
    ensures trace == EventTrace(s, p, listed, failAt)
    ensures outcome.Ignored? <==> !Classify(s, p).ParentRestart?
    ensures outcome.Ignored? ==> outcome.verdict == Classify(s, p)
    ensures outcome == ListFailed <==> Classify(s, p).ParentRestart? && listed.None?
    ensures outcome == NoChildren <==> Classify(s, p).ParentRestart? && listed.Some? && Dependents(s, p, listed.value) == []
    ensures outcome.RestartFailed? <==>
      && Classify(s, p).ParentRestart? && listed.Some?
      && failAt.Some? && failAt.value < |Dependents(s, p, listed.value)|
    ensures outcome.RestartFailed? ==> outcome.pmId == Dependents(s, p, listed.value)[failAt.value].pmId
  {
    var verdict := Classify(s, p);
    if !verdict.ParentRestart? {
      return [], Ignored(verdict);
    }
    trace := [ListProcesses];
    if listed.None? {
      return trace, ListFailed;
    }
    var children := ChildApps(s.tagKey, verdict.parentName, listed.value);
    if |children| == 0 {
      return trace, NoChildren;
    }
    var cascade, aborted := RunCascade(children, s.restartDelayMs, failAt);
    trace := trace + cascade;
    outcome := if aborted then RestartFailed(children[failAt.value].pmId) else Completed;
  }

  /** Events of a process whose event object carries a truthy tag cause no
      list call and no restart, whatever the event kind or status. */
  lemma ChildEventsAreInert(s: Settings, p: Packet, listed: Option<seq<App>>, failAt: Option<nat>)
    requires Truthy(EventTag(s, p))
    ensures EventTrace(s, p, listed, failAt) == []
  {
  }

  /** Anything but an "online" event of a "launching" process causes no
      list call and no restart. */
  lemma NonLaunchEventsAreInert(s: Settings, p: Packet, listed: Option<seq<App>>, failAt: Option<nat>)
    requires p.event != Str("online") || Status(p) != Str("launching")
    ensures EventTrace(s, p, listed, failAt) == []
  {
  }

  /** A manual restart of a parent makes no list call with ignore-manual on,
      and goes on to the list call with it off. */
  lemma ManualRestartDiscovery(s: Settings, p: Packet, listed: Option<seq<App>>, failAt: Option<nat>)
    requires !Truthy(EventTag(s, p))
    requires p.event == Str("online") && Status(p) == Str("launching")
    requires Truthy(p.manually)
    ensures EventTrace(s.(ignoreManual := true), p, listed, failAt) == []
    ensures EventTrace(s.(ignoreManual := false), p, listed, failAt) != []
    ensures EventTrace(s.(ignoreManual := false), p, listed, failAt)[0] == ListProcesses
  {
  }

  /** The list call happens exactly once, first, and only for a trigger. */
  lemma ListCallOnlyFirst(s: Settings, p: Packet, listed: Option<seq<App>>, failAt: Option<nat>)
    ensures Classify(s, p).ParentRestart? <==> ListProcesses in EventTrace(s, p, listed, failAt)
    ensures forall j :: 0 < j < |EventTrace(s, p, listed, failAt)| ==> !EventTrace(s, p, listed, failAt)[j].ListProcesses?
  {
  }

  /** A list call that fails ends the invocation: nothing is restarted and no
      pause is taken. */
  lemma ListFailureRestartsNothing(s: Settings, p: Packet, failAt: Option<nat>)
    requires Classify(s, p).ParentRestart?
    ensures EventTrace(s, p, None, failAt) == [ListProcesses]
  {
  }

  /** With no dependent in the list there are no restarts and no pauses. */
  lemma NoDependentsNoRestarts(s: Settings, p: Packet, apps: seq<App>, failAt: Option<nat>)
    requires Classify(s, p).ParentRestart?
    requires Dependents(s, p, apps) == []
    ensures EventTrace(s, p, Some(apps), failAt) == [ListProcesses]
  {
  }

  /** The list call in front of a cascade restarts nothing and pauses for
      nothing. */
  lemma {:induction false} LeadingListCall(c: seq<Action>)
    ensures RestartedIds([ListProcesses] + c) == RestartedIds(c)
    ensures Delays([ListProcesses] + c) == Delays(c)
    decreases |c|
  {
    if c == [] {
      assert [ListProcesses] + c == [] + [ListProcesses];
      ProjectionsSnoc([], ListProcesses);
    } else {
      var n := |c| - 1;
      LeadingListCall(c[..n]);
      assert [ListProcesses] + c == ([ListProcesses] + c[..n]) + [c[n]];
      ProjectionsSnoc([ListProcesses] + c[..n], c[n]);
      ProjectionsSnoc(c[..n], c[n]);
      assert c[..n] + [c[n]] == c;
    }
  }

  /** When every call succeeds, the restarted ids are the dependents' ids in
      list order, one per dependent, and the pauses number K for K > 1
      dependents and 0 otherwise. */
  lemma SuccessfulCascade(s: Settings, p: Packet, apps: seq<App>, failAt: Option<nat>)
    requires Classify(s, p).ParentRestart?
    requires failAt.None? || failAt.value >= |Dependents(s, p, apps)|
    ensures RestartedIds(EventTrace(s, p, Some(apps), failAt)) == PmIds(Dependents(s, p, apps))
    ensures Delays(EventTrace(s, p, Some(apps), failAt)) ==
      if |Dependents(s, p, apps)| > 1 then seq(|Dependents(s, p, apps)|, _ => s.restartDelayMs) else []
  {
    var children := Dependents(s, p, apps);
    var c := CascadeTrace(children, s.restartDelayMs, failAt);
    assert EventTrace(s, p, Some(apps), failAt) == [ListProcesses] + c;
    CascadeCompletes(children, s.restartDelayMs, failAt);
    LeadingListCall(c);
  }

  /** When restart call i fails, dependents after i are never restarted,
      the failed restart is the invocation's last action (no pause follows
      it), and only the i pauses before it were taken if paced. */
  lemma FailedRestartStopsCascade(s: Settings, p: Packet, apps: seq<App>, i: nat)
    requires Classify(s, p).ParentRestart?
    requires i < |Dependents(s, p, apps)|
    ensures RestartedIds(EventTrace(s, p, Some(apps), Some(i))) == PmIds(Dependents(s, p, apps)[..i + 1])
    ensures EventTrace(s, p, Some(apps), Some(i))[|EventTrace(s, p, Some(apps), Some(i))| - 1] == Restart(Dependents(s, p, apps)[i].pmId)
    ensures Delays(EventTrace(s, p, Some(apps), Some(i))) ==
      if |Dependents(s, p, apps)| > 1 then seq(i, _ => s.restartDelayMs) else []
  {
    var c := CascadeTrace(Dependents(s, p, apps), s.restartDelayMs, Some(i));
    assert EventTrace(s, p, Some(apps), Some(i)) == [ListProcesses] + c;
    CascadeAborts(Dependents(s, p, apps), s.restartDelayMs, i);
    LeadingListCall(c);
  }

  function ApiPacket(): Packet
  {
    Packet(Str("online"), map["name" := Str("api"), "status" := Str("launching")], Bool(false))
  }

  function Tagged(name: string, id: int, parent: string): App
  {
    App(Str(name), Num(id), Some(map[DefaultTagKey := Str(parent)]))
  }

  function ApiList(): seq<App>
  {
    [App(Str("api"), Num(0), Some(map[])), Tagged("worker1", 1, "api"), Tagged("worker2", 2, "api"), Tagged("other", 3, "unrelated")]
  }

  lemma ApiScenarioDependents()
    ensures Dependents(LoadSettings(None, None, None), ApiPacket(), ApiList()) == [Tagged("worker1", 1, "api"), Tagged("worker2", 2, "api")]
  {
  }

  /** The scenario of a parent "api" restarted automatically with two
      workers tagged to it, an untagged "api" entry and an unrelated app:
      both workers are restarted in list order and, as the loop is written,
      each restart is followed by a 200 ms pause, the last one included. */
  lemma ApiScenario()
    ensures EventTrace(LoadSettings(None, None, None), ApiPacket(), Some(ApiList()), None) ==
      [ListProcesses, Restart(Num(1)), Delay(200), Restart(Num(2)), Delay(200)]
  {
  }
}
