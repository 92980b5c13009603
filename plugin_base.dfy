/**
 * The lifecycle of a device plugin tab (`PluginBase`): three states, guarded
 * transitions that call the plugin's start/stop hooks, an error counter, and
 * the clearing of the device's callback dictionary when the plugin is
 * destroyed.
 *
 * The hooks are the plugin's own `start`/`stop` (or `start_comcu`/`stop_comcu`
 * when the plugin defines them). An exception raised by a hook is reported
 * and swallowed, so it never changes a transition; the model records which
 * hooks were called, in order.
 */
module PluginBase {
  import opened Bindings

  datatype PluginState = Stopped | Running | Paused

  /** The IP connection's state as start_plugin sees it. */
  datatype ConnectionState = Disconnected | Connected | Pending

  datatype Hook = Start | StartComcu | Stop | StopComcu | Destroy

  datatype Op = StartPlugin(connection: ConnectionState) | StopPlugin | PausePlugin | ResumePlugin

  /**
   * The state after one lifecycle call: stop_plugin always stops, and only
   * start_plugin leaves STOPPED.
   */
  function Next(s: PluginState, op: Op): (r: PluginState)
    ensures op == StopPlugin ==> r == Stopped
    ensures s == Stopped && r != Stopped ==> op.StartPlugin?
    ensures r == Running && s != Running ==> (s == Stopped && op.StartPlugin?) || (s == Paused && op == ResumePlugin)
  {
    match op
    case StartPlugin(c) => if s != Stopped then s else if c == Pending then Paused else Running
    case StopPlugin => Stopped
    case PausePlugin => if s == Running then Paused else s
    case ResumePlugin => if s == Paused then Running else s
  }

  function StartHook(hasStartComcu: bool): Hook { if hasStartComcu then StartComcu else Start }

  function StopHook(hasStopComcu: bool): Hook { if hasStopComcu then StopComcu else Stop }

  /**
   * The hooks one lifecycle call invokes: a start hook exactly when the
   * plugin enters RUNNING, a stop hook exactly when it leaves it, and
   * nothing otherwise.
   */
  function HooksOf(s: PluginState, op: Op, hasStartComcu: bool, hasStopComcu: bool): (r: seq<Hook>)
    ensures s != Running && Next(s, op) == Running ==> r == [StartHook(hasStartComcu)]
    ensures s == Running && Next(s, op) != Running ==> r == [StopHook(hasStopComcu)]
    ensures (s == Running) == (Next(s, op) == Running) ==> r == []
  {
    match op
    case StartPlugin(c) => if s == Stopped && c != Pending then [StartHook(hasStartComcu)] else []
    case StopPlugin => if s == Running then [StopHook(hasStopComcu)] else []
    case PausePlugin => if s == Running then [StopHook(hasStopComcu)] else []
    case ResumePlugin => if s == Paused then [StartHook(hasStartComcu)] else []
  }

  /** The state after a series of lifecycle calls: a series that ends with stop_plugin ends stopped. */
  function Run(s: PluginState, ops: seq<Op>): (r: PluginState)
    ensures |ops| > 0 && ops[|ops| - 1] == StopPlugin ==> r == Stopped
    decreases |ops|
  {
    if |ops| == 0 then s else Run(Next(s, ops[0]), ops[1..])
  }

  /**
   * The hooks a series of lifecycle calls invokes, in order: at most one per
   * call, and never the destroy hook.
   */
  function RunHooks(s: PluginState, ops: seq<Op>, hasStartComcu: bool, hasStopComcu: bool): (r: seq<Hook>)
    ensures |r| <= |ops|
    ensures forall i :: 0 <= i < |r| ==> r[i] != Destroy
    decreases |ops|
  {
    if |ops| == 0 then []
    else HooksOf(s, ops[0], hasStartComcu, hasStopComcu) + RunHooks(Next(s, ops[0]), ops[1..], hasStartComcu, hasStopComcu)
  }

  function StartCount(hs: seq<Hook>): nat
  {
    if |hs| == 0 then 0 else (if hs[0] == Start || hs[0] == StartComcu then 1 else 0) + StartCount(hs[1..])
  }

  function StopCount(hs: seq<Hook>): nat
  {
    if |hs| == 0 then 0 else (if hs[0] == Stop || hs[0] == StopComcu then 1 else 0) + StopCount(hs[1..])
  }

  lemma {:induction false} CountsAppend(a: seq<Hook>, b: seq<Hook>)
    ensures StartCount(a + b) == StartCount(a) + StartCount(b)
    ensures StopCount(a + b) == StopCount(a) + StopCount(b)
    decreases |a|
  {
    if |a| > 0 {
      assert (a + b)[1..] == a[1..] + b;
      CountsAppend(a[1..], b);
    } else {
      assert a + b == b;
    }
  }

  /**
   * start_plugin acts only on a stopped plugin: with the connection pending it
   * only marks the plugin paused; otherwise it calls the start hook once and
   * the plugin runs.
   */
  lemma StartPluginRule(s: PluginState, c: ConnectionState, hasStartComcu: bool, hasStopComcu: bool)
    ensures s != Stopped ==> Next(s, StartPlugin(c)) == s && HooksOf(s, StartPlugin(c), hasStartComcu, hasStopComcu) == []
    ensures s == Stopped && c == Pending ==> Next(s, StartPlugin(c)) == Paused && HooksOf(s, StartPlugin(c), hasStartComcu, hasStopComcu) == []
    ensures s == Stopped && c != Pending ==>
      (Next(s, StartPlugin(c)) == Running &&
       HooksOf(s, StartPlugin(c), hasStartComcu, hasStopComcu) == [if hasStartComcu then StartComcu else Start])
  {
  }

  /** stop_plugin always ends stopped, calls the stop hook only from RUNNING, and a second stop does nothing more. */
  lemma StopPluginIdempotent(s: PluginState, hasStartComcu: bool, hasStopComcu: bool)
    ensures Next(s, StopPlugin) == Stopped && Next(Next(s, StopPlugin), StopPlugin) == Stopped
    ensures |HooksOf(s, StopPlugin, hasStartComcu, hasStopComcu)| == (if s == Running then 1 else 0)
    ensures HooksOf(Next(s, StopPlugin), StopPlugin, hasStartComcu, hasStopComcu) == []
  {
  }

  /** pause_plugin moves only RUNNING to PAUSED; resume_plugin moves only PAUSED to RUNNING, so a stopped plugin is never resumed. */
  lemma PauseResumeRule(s: PluginState)
    ensures Next(s, PausePlugin) == (if s == Running then Paused else s)
    ensures Next(s, ResumePlugin) == (if s == Paused then Running else s)
    ensures Next(Stopped, ResumePlugin) == Stopped && Next(Stopped, PausePlugin) == Stopped
  {
  }

  /** Once stopped, a plugin stays stopped until start_plugin is called. */
  lemma {:induction false} StoppedUntilStarted(ops: seq<Op>, hasStartComcu: bool, hasStopComcu: bool)
    requires forall i :: 0 <= i < |ops| ==> !ops[i].StartPlugin?
    ensures Run(Stopped, ops) == Stopped
    ensures RunHooks(Stopped, ops, hasStartComcu, hasStopComcu) == []
    decreases |ops|
  {
    if |ops| > 0 {
      StoppedUntilStarted(ops[1..], hasStartComcu, hasStopComcu);
    }
  }

  /**
   * Start and stop hooks are paired: over any series of calls from a
   * stopped plugin, the start hooks outnumber the stop hooks by one while the
   * plugin runs, and equal them otherwise.
   */
  lemma {:induction false} HooksBalanced(s: PluginState, ops: seq<Op>, hasStartComcu: bool, hasStopComcu: bool)
    ensures var hs := RunHooks(s, ops, hasStartComcu, hasStopComcu);
      StartCount(hs) + (if s == Running then 1 else 0) == StopCount(hs) + (if Run(s, ops) == Running then 1 else 0)
    decreases |ops|
  {
    if |ops| > 0 {
      var h := HooksOf(s, ops[0], hasStartComcu, hasStopComcu);
      var rest := RunHooks(Next(s, ops[0]), ops[1..], hasStartComcu, hasStopComcu);
      HooksBalanced(Next(s, ops[0]), ops[1..], hasStartComcu, hasStopComcu);
      CountsAppend(h, rest);
    }
  }

  class Plugin {
    var state: PluginState
    var errorCount: nat
    /** The hooks called so far, in order. */
    var hooks: seq<Hook>
    /** The plugin defines start_comcu / stop_comcu. */
    const hasStartComcu: bool
    const hasStopComcu: bool
    /** The binding object, or null when the device class could not be instantiated. */
    const device: Device?

    constructor (device: Device?, hasStartComcu: bool, hasStopComcu: bool)
      ensures state == Stopped && errorCount == 0 && hooks == []
      ensures this.device == device && this.hasStartComcu == hasStartComcu && this.hasStopComcu == hasStopComcu
    {
      state := Stopped;
      errorCount := 0;
      hooks := [];
      this.device := device;
      this.hasStartComcu := hasStartComcu;
      this.hasStopComcu := hasStopComcu;
    }

    method StartPlugin(connection: ConnectionState)
      modifies this`state, this`hooks
      ensures state == Next(old(state), Op.StartPlugin(connection))
      ensures hooks == old(hooks) + HooksOf(old(state), Op.StartPlugin(connection), hasStartComcu, hasStopComcu)
    {
      if state == Stopped {
        if connection == Pending {
          state := Paused;
        } else {
          hooks := hooks + [if hasStartComcu then StartComcu else Start];
          state := Running;
        }
      }
    }

    method StopPlugin()
      modifies this`state, this`hooks
      ensures state == Stopped
      ensures hooks == old(hooks) + HooksOf(old(state), Op.StopPlugin, hasStartComcu, hasStopComcu)
    {
      if state == Running {
        hooks := hooks + [if hasStopComcu then StopComcu else Stop];
      }
      state := Stopped;
    }

    method PausePlugin()
      modifies this`state, this`hooks
      ensures state == Next(old(state), Op.PausePlugin)
      ensures hooks == old(hooks) + HooksOf(old(state), Op.PausePlugin, hasStartComcu, hasStopComcu)
    {
      if state == Running {
        hooks := hooks + [if hasStopComcu then StopComcu else Stop];
        state := Paused;
      }
    }

    method ResumePlugin()
      modifies this`state, this`hooks
      ensures state == Next(old(state), Op.ResumePlugin)
      ensures hooks == old(hooks) + HooksOf(old(state), Op.ResumePlugin, hasStartComcu, hasStopComcu)
    {
      if state == Paused {
        hooks := hooks + [if hasStartComcu then StartComcu else Start];
        state := Running;
      }
    }

    /** destroy_plugin: call the destroy hook, then empty the device's callback dictionary. */
    method DestroyPlugin()
      modifies this`hooks, device
      ensures hooks == old(hooks) + [Destroy]
      ensures device != null ==>
        (device.registeredCallbacks == map[] &&
         device.responseExpected == old(device.responseExpected) &&
         device.callbackFormats == old(device.callbackFormats) &&
         device.highLevelCallbacks == old(device.highLevelCallbacks))
    {
      hooks := hooks + [Destroy];
      if device != null {
        device.registeredCallbacks := map[];
      }
    }

    method IncreaseErrorCount()
      modifies this`errorCount
      ensures errorCount == old(errorCount) + 1
    {
      errorCount := errorCount + 1;
    }
  }
}
