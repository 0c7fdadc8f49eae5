/** The plugin's state machine: the globals of namespace `plugin` (enabled flag, provider
    id, sampling timer), the CPU profiler's session, and the handlers the agent and the
    event loop call. What the plugin hands to the agent is kept as two logs: the
    messages it sends and the data it pushes. */
module Plugin {
  import opened Wrappers
  import opened CallTree
  import opened WireFormat
  import opened Serializer
  import opened Control

  newtype uint32 = x: int | 0 <= x < 0x1_0000_0000

  /** `DEFAULT_CAPACITY`: the buffer size the plugin asks the agent for. */
  const DefaultCapacity: uint32 := 10240

  /** `PROFILING_INTERVAL`: the timer's first timeout and repeat period, in milliseconds. */
  const ProfilingInterval: nat := 5000

  /** The description of one push source. */
  datatype SourceHeader = SourceHeader(name: string, description: string, sourceId: uint32, capacity: uint32)

  /** A list of push sources, as `registerPushSource` returns it. */
  datatype PushSource = PushSource(header: SourceHeader, next: Option<PushSource>)

  /** One `monitordata` record handed to `agentPushData`. `size` is the blob's length
      cast to 32 bits. */
  datatype MonitorData = MonitorData(persistent: bool, provId: uint32, sourceId: uint32, size: uint32, data: string)

  /** The sampling timer handle: not created yet (or closed), created and stopped, or
      running with a timeout and a repeat period. */
  datatype Timer = NoTimer | Stopped | Running(timeout: nat, repeat: nat)

  /** `createPushSource`: a single source, described after its name, with the default
      capacity and nothing after it. */
  function CreatePushSource(sourceId: uint32, name: string): PushSource
  {
    PushSource(SourceHeader(name, "Description for " + name, sourceId, DefaultCapacity), None)
  }

  /** `static_cast<uint32>(strlen(...))`: the length taken modulo 2^32. */
  function Length32(data: string): (n: uint32)
    ensures |data| < 0x1_0000_0000 ==> n as int == |data|
  {
    (|data| % 0x1_0000_0000) as uint32
  }

  /** The record a tick pushes for a serialized profile. */
  function ProfileData(provId: uint32, blob: string): MonitorData {
    MonitorData(false, provId, 0, Length32(blob), blob)
  }

  class NodeProfPlugin {
    var enabled: bool
    var provId: uint32
    var timer: Timer
    /** Whether a profiling session is open. */
    var profilerRunning: bool
    /** How many profiling sessions have been opened so far. */
    ghost var sessions: nat
    /** Holds the id counter of the serializer, which lives as long as the process. */
    const serializer: NodeSerializer
    /** Every message sent with `agentSendMessage`, in order. */
    var sent: seq<Message>
    /** Every record pushed with `agentPushData`, in order. */
    var pushed: seq<MonitorData>

    /** A session is open exactly while the timer runs, and the timer runs exactly when
        profiling is enabled and the timer has been created; a running timer fires every
        `ProfilingInterval` milliseconds. */
    ghost predicate Valid()
      reads this
    {
      && (profilerRunning <==> timer.Running?)
      && (timer.Running? <==> enabled && timer != NoTimer)
      && (timer.Running? ==> timer == Running(ProfilingInterval, ProfilingInterval))
    }

    /** The handler that switches profiling to `value` touches the timer only when
        `value` differs from the current state, and then needs the timer to exist. */
    predicate CanSwitch(value: bool)
      reads this
    {
      value != enabled ==> timer != NoTimer
    }

    /** The globals as the library is loaded: disabled, provider id 0, no timer. */
    constructor ()
      ensures Valid()
      ensures !enabled && provId == 0 && timer == NoTimer && !profilerRunning
      ensures fresh(serializer) && serializer.nextId == 1
      ensures sent == [] && pushed == [] && sessions == 0
    {
      enabled := false;
      provId := 0;
      timer := NoTimer;
      profilerRunning := false;
      sessions := 0;
      serializer := new NodeSerializer();
      sent := [];
      pushed := [];
    }

    /** `publishEnabled`: send the configuration message for the current state. */
    method PublishEnabled()
      modifies this
      ensures sent == old(sent) + [ConfigMessage(enabled)]
      ensures enabled == old(enabled) && provId == old(provId) && timer == old(timer)
      ensures profilerRunning == old(profilerRunning) && pushed == old(pushed)
      ensures sessions == old(sessions)
    {
      sent := sent + [ConfigMessage(enabled)];
    }

    /** `StartTheProfiler`: open a session. One session is open at a time, so no
        session may be open already. */
    method StartTheProfiler()
      requires !profilerRunning
      modifies this
      ensures profilerRunning && sessions == old(sessions) + 1
      ensures enabled == old(enabled) && provId == old(provId) && timer == old(timer)
      ensures sent == old(sent) && pushed == old(pushed)
    {
      profilerRunning := true;
      sessions := sessions + 1;
    }

    /** `StopTheProfiler`: close the session. `report` stands for what the profiler
        hands back, absent when there is no isolate, no CPU profiler or no profile. */
    method StopTheProfiler(report: Option<ProfileNode>) returns (profile: Option<ProfileNode>)
      modifies this
      ensures profile == report && !profilerRunning && sessions == old(sessions)
      ensures enabled == old(enabled) && provId == old(provId) && timer == old(timer)
      ensures sent == old(sent) && pushed == old(pushed)
    {
      profilerRunning := false;
      profile := report;
    }

    /** `ibmras_monitoring_registerPushSource`: read the initial state from the
        profiling property, keep the provider id, and offer one push source. */
    method RegisterPushSource(property: string, provID: uint32) returns (head: PushSource)
      modifies this
      ensures enabled == (property == "on") && provId == provID
      ensures head == CreatePushSource(0, SourceName)
      ensures timer == old(timer) && profilerRunning == old(profilerRunning)
      ensures sent == old(sent) && pushed == old(pushed) && sessions == old(sessions)
      ensures old(timer) == NoTimer && !old(profilerRunning) ==> Valid()
    {
      enabled := property == "on";
      head := CreatePushSource(0, SourceName);
      provId := provID;
    }

    /** `enableOnV8Thread`: nothing when already enabled; otherwise enable, announce it,
        open a session and start the timer. */
    method EnableOnV8Thread()
      requires Valid() && CanSwitch(true)
      modifies this
      ensures Valid() && enabled
      ensures old(enabled) ==> unchanged(this)
      ensures !old(enabled) ==>
        && sent == old(sent) + [ConfigMessage(true)]
        && profilerRunning && sessions == old(sessions) + 1
        && timer == Running(ProfilingInterval, ProfilingInterval)
        && provId == old(provId) && pushed == old(pushed)
    {
      if enabled {
        return;
      }
      enabled := true;
      PublishEnabled();
      StartTheProfiler();
      timer := Running(ProfilingInterval, ProfilingInterval);
    }

    /** `disableOnV8Thread`: nothing when already disabled; otherwise disable, announce
        it, stop the timer and close the session, discarding its profile unpushed. */
    method DisableOnV8Thread()
      requires Valid() && CanSwitch(false)
      modifies this
      ensures Valid() && !enabled
      ensures !old(enabled) ==> unchanged(this)
      ensures old(enabled) ==>
        && sent == old(sent) + [ConfigMessage(false)]
        && !profilerRunning && sessions == old(sessions) && timer == Stopped
        && provId == old(provId) && pushed == old(pushed)
    {
      if !enabled {
        return;
      }
      enabled := false;
      PublishEnabled();
      timer := Stopped;
      var discarded := StopTheProfiler(None);
    }

    /** `OnGatherDataOnV8Thread`, the timer callback: nothing when disabled; otherwise
        close the session, push the serialized profile when there is one, and open a
        new session either way. `now` is the wall-clock time the snapshot is stamped
        with. */
    method Tick(now: nat, report: Option<ProfileNode>)
      requires Valid() && timer != NoTimer
      modifies this, serializer
      ensures Valid()
      ensures !old(enabled) ==> unchanged(this) && unchanged(serializer)
      ensures old(enabled) ==>
        && enabled && profilerRunning && sessions == old(sessions) + 1
        && timer == old(timer) && provId == old(provId) && sent == old(sent)
        && pushed == old(pushed)
             + (if report.Some? then [ProfileData(provId, Blob(now, report.value, old(serializer.nextId)))] else [])
        && serializer.nextId == old(serializer.nextId) + (if report.Some? then Size(report.value) else 0)
    {
      if !enabled {
        return;
      }
      var profile := StopTheProfiler(report);
      if profile.Some? {
        var data := serializer.ConstructData(profile.value, now);
        StartTheProfiler();
        pushed := pushed + [ProfileData(provId, data)];
      } else {
        StartTheProfiler();
      }
    }

    /** `setEnabled`, with the handler it schedules run at once. */
    method SetEnabled(value: bool)
      requires Valid() && CanSwitch(value)
      modifies this
      ensures Valid() && enabled == value
      ensures old(enabled) == value ==> unchanged(this)
      ensures old(enabled) != value ==>
        && sent == old(sent) + [ConfigMessage(value)]
        && profilerRunning == value && sessions == old(sessions) + (if value then 1 else 0)
        && timer == (if value then Running(ProfilingInterval, ProfilingInterval) else Stopped)
        && provId == old(provId) && pushed == old(pushed)
    {
      if value {
        EnableOnV8Thread();
      } else {
        DisableOnV8Thread();
      }
    }

    /** `ibmras_monitoring_receiveMessage`: act on a control message addressed to this
        source, and drop any other. */
    method ReceiveMessage(id: string, payload: string)
      requires |payload| < 0x1_0000_0000
      requires Valid()
      requires ParseControl(id, payload).Some? ==> CanSwitch(ParseControl(id, payload).value)
      modifies this
      ensures Valid()
      ensures ParseControl(id, payload).Some? ==> enabled == ParseControl(id, payload).value
      ensures ParseControl(id, payload).None? ==> unchanged(this)
      ensures enabled == old(enabled) ==> unchanged(this)
      ensures enabled != old(enabled) ==>
        && sent == old(sent) + [ConfigMessage(enabled)]
        && profilerRunning == enabled && sessions == old(sessions) + (if enabled then 1 else 0)
        && timer == (if enabled then Running(ProfilingInterval, ProfilingInterval) else Stopped)
        && provId == old(provId) && pushed == old(pushed)
    {
      var request := ParseControl(id, payload);
      if request.Some? {
        SetEnabled(request.value);
      }
    }

    /** `ibmras_monitoring_plugin_start`: announce the current state, create the timer,
        and when enabled open a session and start the timer. The agent starts a plugin
        whose timer has not been created, or has been closed by a stop. */
    method PluginStart()
      requires Valid() && timer == NoTimer
      modifies this
      ensures Valid()
      ensures enabled == old(enabled) && provId == old(provId) && pushed == old(pushed)
      ensures sent == old(sent) + [ConfigMessage(enabled)]
      ensures timer == if enabled then Running(ProfilingInterval, ProfilingInterval) else Stopped
      ensures profilerRunning == enabled && sessions == old(sessions) + (if enabled then 1 else 0)
    {
      PublishEnabled();
      timer := Stopped;
      if enabled {
        StartTheProfiler();
        timer := Running(ProfilingInterval, ProfilingInterval);
      }
    }

    /** `ibmras_monitoring_plugin_stop`: when enabled, disable without announcing it,
        stop and close the timer, and close the session discarding its profile; when
        disabled, nothing. */
    method PluginStop()
      requires Valid() && CanSwitch(false)
      modifies this
      ensures Valid() && !enabled
      ensures !old(enabled) ==> unchanged(this)
      ensures old(enabled) ==>
        && timer == NoTimer && !profilerRunning && sessions == old(sessions)
        && sent == old(sent) && pushed == old(pushed) && provId == old(provId)
    {
      if enabled {
        enabled := false;
        timer := NoTimer;
        var discarded := StopTheProfiler(None);
      }
    }
  }

  /** A process that loads the plugin with profiling on, starts it, samples once, is
      switched off by a control message, and then sees one more tick: the agent gets the
      `on` and `off` announcements and exactly the one snapshot, numbered from 1. */
  method SampleThenSwitchOff(tree: ProfileNode, later: ProfileNode, now: nat, provID: uint32)
    returns (sent: seq<Message>, pushed: seq<MonitorData>)
    ensures sent == [ConfigMessage(true), ConfigMessage(false)]
    ensures pushed == [ProfileData(provID, Blob(now, tree, 1))]
  {
    var p := new NodeProfPlugin();
    var head := p.RegisterPushSource("on", provID);
    p.PluginStart();
    p.Tick(now, Some(tree));
    ParseControlDisableExample();
    p.ReceiveMessage(SourceName, "off" + "," + SubsystemTopic);
    p.Tick(now + ProfilingInterval, Some(later));
    sent := p.sent;
    pushed := p.pushed;
  }

  /** Three ticks of an enabled plugin, the middle one finding no profile: two snapshots
      are pushed, and the second continues the numbering where the first stopped. */
  method TicksContinueNumbering(first: ProfileNode, second: ProfileNode, now: nat, provID: uint32)
    returns (pushed: seq<MonitorData>)
    ensures pushed == [ProfileData(provID, Blob(now, first, 1)),
                       ProfileData(provID, Blob(now + 2 * ProfilingInterval, second, 1 + Size(first)))]
  {
    var p := new NodeProfPlugin();
    var head := p.RegisterPushSource("on", provID);
    p.PluginStart();
    p.Tick(now, Some(first));
    p.Tick(now + ProfilingInterval, None);
    p.Tick(now + 2 * ProfilingInterval, Some(second));
    pushed := p.pushed;
  }
}
