/**
 * The `ServiceConsul` class of src/service-consul.mjs: registration, the debounced
 * re-registration of `update`, the `stepRegistered` listener bookkeeping of `_start` and
 * `_stop`, and the key/value calls of `registerService` and `unregisterService`. Every
 * registry call is recorded, in issue order, as an opaque `Call`.
 */
module ServiceConsul {
  import opened Wrappers
  import opened Definitions
  import opened Debounce
  import opened Kv
  import Resolver

  /** Options `_start` passes to the retry helper (its semantics are not modelled). */
  const MaxAttempts: nat := 5
  const Throttle: nat := 2000

  /** The delay the `stepRegistered` listener passes to `update`. */
  const StepRegisteredDelay: int := 5000

  /** A registry call issued by the service. */
  datatype Call =
    | Register(definition: Definition)  // agent.service.register
    | Deregister(id: string)            // agent.service.deregister
    | SetKey(key: string, value: string) // kv.set
    | DeleteTree(key: string)           // kv.del with recurse

  class ConsulService {
    /** `this.owner.id`, `this.id`, the listener and the check configuration. */
    const ownerId: string
    const id: string
    const listener: Listener
    const checkPath: string
    const checkInterval: Duration
    const checkTimeout: Duration

    /** `this.tags`. */
    var tags: seq<string>
    /** `this._updateTimer`, and the runtime's table of timers (pending ones, next id). */
    var updateTimer: Option<TimerId>
    var pendingTimers: set<TimerId>
    var nextTimer: TimerId
    /** `this._stepRegisteredListener !== undefined`. */
    var stepListener: bool
    /** Whether the owner holds that listener for 'stepRegistered'. */
    var subscribed: bool
    /** The registry calls issued so far, oldest first. */
    var calls: seq<Call>
    /**
     * The deregister calls of `reregister` still unsettled: each one, once it resolves, runs
     * its `.then` and registers the definition as it is at that moment.
     */
    var awaiting: nat

    /**
     * The `serviceDefinition` getter, read at the moment it is called: it always carries the
     * owner's id, the listener's endpoint and the current tags.
     */
    function Definition(): (d: Definitions.Definition)
      reads this
      ensures d.id == ownerId && d.tags == tags
      ensures d.port == listener.port && d.address == listener.address
      ensures d.check.http == listener.url + checkPath && EndsWithS(d.check.interval)
    {
      ServiceDefinition(ownerId, listener, tags, checkPath, checkInterval, checkTimeout)
    }

    function TimerState(): Timers
      reads this
    {
      Timers(updateTimer, pendingTimers, nextTimer)
    }

    /** Only the stored timer can be pending, and the owner holds a listener only via the field. */
    ghost predicate Valid()
      reads this
    {
      Debounced(TimerState()) && (subscribed ==> stepListener)
    }

    constructor (ownerId: string, id: string, listener: Listener, checkPath: string,
                 checkInterval: Duration, checkTimeout: Duration)
      ensures Valid()
      ensures this.ownerId == ownerId && this.id == id && this.listener == listener
      ensures this.checkPath == checkPath && this.checkInterval == checkInterval
      ensures this.checkTimeout == checkTimeout
      ensures tags == [] && TimerState() == NoTimers() && !stepListener && !subscribed
      ensures calls == [] && awaiting == 0
    {
      this.ownerId, this.id, this.listener := ownerId, id, listener;
      this.checkPath, this.checkInterval, this.checkTimeout := checkPath, checkInterval, checkTimeout;
      tags, updateTimer, pendingTimers, nextTimer := [], None, {}, 0;
      stepListener, subscribed, calls, awaiting := false, false, [], 0;
    }

    /** `updateTags()`: `stepNames` are `Object.keys(this.owner.steps)`, in key order. */
    method UpdateTags(stepNames: seq<string>)
      modifies this`tags
      ensures tags == StepTags(stepNames)
    {
      tags := StepTags(stepNames);
    }

    /**
     * `_start`: compute the tags, register, and only when the registration succeeds
     * (`registered`) install the 'stepRegistered' listener. The one recorded register call
     * stands for the whole retry loop, and `registered` for its outcome.
     */
    method Start(stepNames: seq<string>, registered: bool)
      requires Valid()
      modifies this
      ensures Valid()
      ensures tags == StepTags(stepNames)
      ensures calls == old(calls) + [Register(Definition())]
      ensures stepListener == (registered || old(stepListener))
      ensures subscribed == (registered || old(subscribed))
      ensures TimerState() == old(TimerState()) && awaiting == old(awaiting)
    {
      UpdateTags(stepNames);
      calls := calls + [Register(Definition())];
      if registered {
        stepListener := true;
        subscribed := true;
      }
    }

    /**
     * `_stop`: deregister by the definition's id; once that succeeds (`deregistered`), remove
     * the listener. The debounce timer is left as it is.
     */
    method Stop(deregistered: bool)
      requires Valid()
      modifies this
      ensures Valid()
      ensures calls == old(calls) + [Deregister(ownerId)]
      ensures deregistered ==> !stepListener && !subscribed
      ensures !deregistered ==> stepListener == old(stepListener) && subscribed == old(subscribed)
      ensures tags == old(tags) && TimerState() == old(TimerState()) && awaiting == old(awaiting)
    {
      calls := calls + [Deregister(Definition().id)];
      if deregistered && stepListener {
        subscribed := false;
        stepListener := false;
      }
    }

    /**
     * `update(delay)`: cancel the stored timer, then store a new one for a truthy delay, or
     * run `reregister` at once for delay 0 (`reregistered`): deregister by the definition's
     * id, the register waiting for that to settle.
     */
    method Update(delay: int) returns (reregistered: bool)
      requires Valid()
      modifies this
      ensures Valid()
      ensures var r := Debounce.Update(old(TimerState()), delay);
        TimerState() == r.timers && reregistered == r.immediate
      ensures calls == old(calls) + (if reregistered then [Deregister(ownerId)] else [])
      ensures awaiting == old(awaiting) + (if reregistered then 1 else 0)
      ensures tags == old(tags) && stepListener == old(stepListener) && subscribed == old(subscribed)
    {
      UpdateAlwaysCancels(TimerState(), delay);
      if updateTimer.Some? {
        pendingTimers := pendingTimers - {updateTimer.value};
      }
      if delay != 0 {
        updateTimer := Some(nextTimer);
        pendingTimers := pendingTimers + {nextTimer};
        nextTimer := nextTimer + 1;
        reregistered := false;
      } else {
        calls := calls + [Deregister(Definition().id)];
        awaiting := awaiting + 1;
        reregistered := true;
      }
    }

    /** The runtime fires timer `timer`: when it is still pending, `reregister` runs. */
    method FireTimer(timer: TimerId) returns (fired: bool)
      requires Valid()
      modifies this
      ensures Valid()
      ensures var r := Fire(old(TimerState()), timer);
        TimerState() == r.timers && fired == r.fired
      ensures calls == old(calls) + (if fired then [Deregister(ownerId)] else [])
      ensures awaiting == old(awaiting) + (if fired then 1 else 0)
      ensures tags == old(tags) && stepListener == old(stepListener) && subscribed == old(subscribed)
    {
      FireKeepsDebounced(TimerState(), timer);
      fired := timer in pendingTimers;
      pendingTimers := pendingTimers - {timer};
      if fired {
        calls := calls + [Deregister(Definition().id)];
        awaiting := awaiting + 1;
      }
    }

    /**
     * A deregister issued by `reregister` settles. When it resolves (`resolved`), the `.then`
     * reads the `serviceDefinition` getter now, so the register carries the tags current at
     * this moment; when it rejects, nothing is registered.
     */
    method DeregisterSettled(resolved: bool)
      requires Valid() && awaiting > 0
      modifies this`calls, this`awaiting
      ensures Valid() && awaiting == old(awaiting) - 1
      ensures calls == old(calls) + (if resolved then [Register(Definition())] else [])
    {
      awaiting := awaiting - 1;
      if resolved {
        calls := calls + [Register(Definition())];
      }
    }

    /** The owner emits 'stepRegistered': the listener, when installed, runs `updateTags` and `update(5000)`. */
    method StepRegistered(stepNames: seq<string>)
      requires Valid()
      modifies this
      ensures Valid()
      ensures subscribed == old(subscribed) && stepListener == old(stepListener)
      ensures old(subscribed) ==>
        (tags == StepTags(stepNames) &&
         TimerState() == Debounce.Update(old(TimerState()), StepRegisteredDelay).timers)
      ensures !old(subscribed) ==> tags == old(tags) && TimerState() == old(TimerState())
      ensures calls == old(calls) && awaiting == old(awaiting)
    {
      if subscribed {
        UpdateTags(stepNames);
        var _ := Update(StepRegisteredDelay);
      }
    }

    /** `registerService(name, {url})`: write the URL under the owner's id. */
    method RegisterService(name: string, url: string)
      modifies this`calls
      ensures calls == old(calls) + [SetKey(RegisteredKey(name, ownerId), url)]
    {
      calls := calls + [SetKey(RegisteredKey(name, ownerId), url)];
    }

    /** `unregisterService(name)`: delete the subtree under this service's own id. */
    method UnregisterService(name: string)
      modifies this`calls
      ensures calls == old(calls) + [DeleteTree(InstanceKey(name, id))]
    {
      calls := calls + [DeleteTree(InstanceKey(name, id))];
    }

    /** `serviceURLs(name)`: a new generator, with its own fetch and cursor. */
    method ServiceUrls(name: string) returns (g: Resolver.ServiceUrls)
      ensures fresh(g) && g.name == name && g.Invariant() && g.State() == Resolver.Fresh()
    {
      g := new Resolver.ServiceUrls(name);
    }
  }

  /**
   * A burst of topology changes: registered with steps a and b, the owner reports step c twice
   * in quick succession; the first timer is cancelled, and firing the last one re-registers
   * once, with the tags current at that moment.
   */
  method TopologyChangeReregistersOnce(ownerId: string, listener: Listener) returns (calls: seq<Call>)
    ensures |calls| == 3 && calls[0].Register? && calls[1] == Deregister(ownerId) && calls[2].Register?
    ensures calls[0].definition.tags == ["step:a", "step:b"]
    ensures calls[2].definition.tags == ["step:a", "step:b", "step:c"]
  {
    var s := new ConsulService(ownerId, "consul", listener, DefaultCheckPath,
                               DefaultCheckInterval, DefaultCheckTimeout);
    s.Start(["a", "b"], true);
    s.StepRegistered(["a", "b", "c"]);
    s.StepRegistered(["a", "b", "c"]);
    var first := s.FireTimer(0);
    var last := s.FireTimer(1);
    assert !first && last;
    s.DeregisterSettled(true);
    StepTagsOfSteps();
    calls := s.calls;
  }

  /**
   * `update(0)` deregisters at once; a topology change that arrives before the deregister
   * resolves is part of the definition the `.then` registers.
   */
  method TagsChangedWhileDeregistering(ownerId: string, listener: Listener) returns (calls: seq<Call>)
    ensures |calls| == 3 && calls[0].Register? && calls[1] == Deregister(ownerId) && calls[2].Register?
    ensures calls[0].definition.tags == ["step:a", "step:b"]
    ensures calls[2].definition.tags == ["step:a", "step:b", "step:c"]
  {
    var s := new ConsulService(ownerId, "consul", listener, DefaultCheckPath,
                               DefaultCheckInterval, DefaultCheckTimeout);
    s.Start(["a", "b"], true);
    var now := s.Update(0);
    s.StepRegistered(["a", "b", "c"]);
    s.DeregisterSettled(true);
    StepTagsOfSteps();
    calls := s.calls;
  }

  /**
   * `_stop` leaves the debounce timer alone: a re-registration scheduled before the service
   * stops still registers it again afterwards.
   */
  method ReregistrationSurvivesStop(ownerId: string, listener: Listener) returns (calls: seq<Call>)
    ensures |calls| == 4
    ensures calls[1] == Deregister(ownerId) && calls[2] == Deregister(ownerId) && calls[3].Register?
  {
    var s := new ConsulService(ownerId, "consul", listener, DefaultCheckPath,
                               DefaultCheckInterval, DefaultCheckTimeout);
    s.Start(["a"], true);
    s.StepRegistered(["a", "b"]);
    s.Stop(true);
    var fired := s.FireTimer(0);
    assert fired;
    s.DeregisterSettled(true);
    calls := s.calls;
  }
}
