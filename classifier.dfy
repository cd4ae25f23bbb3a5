/** The chain of early returns at the top of the `process:event` handler that
    decides whether a packet reports a parent application coming back up. */
module Classifier {

  import opened Js
  import opened Config

  /** A `process:event` packet: `packet.event`, `packet.process` (the event's
      process object, read as a property map) and `packet.manually`. */
  datatype Packet = Packet(event: JsValue, process: JsObject, manually: JsValue)

  /** Why the handler stops, or the parent name it goes on with. */
  datatype Verdict =
    | FromChild                          // the event's process carries the tag
    | NotALaunch                         // not an "online" event of a "launching" process
    | ManualIgnored(name: JsValue)       // a manual restart while those are ignored
    | ParentRestart(parentName: JsValue) // go on to discover the dependents

  /** `processFromEvent[PARENT_ENV_KEY]`: the tag read from the event's own
      process object; not the same field the discovery filter reads. */
  function EventTag(s: Settings, p: Packet): JsValue
  {
    Get(p.process, s.tagKey)
  }

  function Status(p: Packet): JsValue
  {
    Get(p.process, "status")
  }

  function Name(p: Packet): JsValue
  {
    Get(p.process, "name")
  }

  /** The checks run in source order and the first that applies decides. */
  function Classify(s: Settings, p: Packet): (v: Verdict)
    ensures v.ParentRestart? ==> v.parentName == Name(p)
    ensures v.ManualIgnored? ==> v.name == Name(p)
  {
    if Truthy(EventTag(s, p)) then FromChild
    else if !StrictEquals(p.event, Str("online")) || !StrictEquals(Status(p), Str("launching")) then NotALaunch
    else if Truthy(p.manually) && s.ignoreManual then ManualIgnored(Name(p))
    else ParentRestart(Name(p))
  }

  /** A process whose event object holds a truthy tag is a child: its events
      are dropped whatever the event kind, status or manual flag. */
  lemma TaggedProcessNeverTriggers(s: Settings, p: Packet)
    requires Truthy(EventTag(s, p))
    ensures Classify(s, p) == FromChild
  {
  }

  /** Only `event == "online"` together with `status == "launching"` can get
      past the classifier; every other combination is dropped. */
  lemma OnlyOnlineLaunchingTriggers(s: Settings, p: Packet)
    ensures Classify(s, p).ParentRestart? ==> p.event == Str("online") && Status(p) == Str("launching")
    ensures p.event != Str("online") || Status(p) != Str("launching") ==> !Classify(s, p).ParentRestart?
  {
  }

  /** The same manual event is dropped with ignore-manual on and accepted with
      it off. */
  lemma ManualFlagDecides(s: Settings, p: Packet)
    requires !Truthy(EventTag(s, p))
    requires p.event == Str("online") && Status(p) == Str("launching")
    requires Truthy(p.manually)
    ensures Classify(s.(ignoreManual := true), p) == ManualIgnored(Name(p))
    ensures Classify(s.(ignoreManual := false), p) == ParentRestart(Name(p))
  {
  }

  /** An automatic (non-manual) restart is never dropped by the ignore-manual
      setting. */
  lemma AutomaticRestartIgnoresFlag(s: Settings, p: Packet)
    requires !Truthy(p.manually)
    ensures Classify(s.(ignoreManual := true), p) == Classify(s.(ignoreManual := false), p)
  {
  }

  /** Both directions: the packet triggers a cascade exactly when none of the
      three rejections applies. */
  lemma TriggerCharacterization(s: Settings, p: Packet)
    ensures Classify(s, p).ParentRestart? <==>
      && !Truthy(EventTag(s, p))
      && p.event == Str("online")
      && Status(p) == Str("launching")
      && !(Truthy(p.manually) && s.ignoreManual)
  {
  }

  /** Because the tag is read from the event's process object itself, a tag
      key of "status" makes every launching process look like a child, so no
      event can ever trigger. */
  lemma StatusAsTagKeyDisablesCascades(s: Settings, p: Packet)
    requires s.tagKey == "status"
    ensures !Classify(s, p).ParentRestart?
  {
  }
}
