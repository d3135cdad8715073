/**
 * The older `ServiceConsul` class of service.js: its record builders (`serviceId`,
 * `serviceName`, `serviceDefinition`, `checkDefinition`, the `registerService` record), its tag
 * assignments and its own `update` timer, whose delay-0 path leaves the pending timer alone.
 */
module LegacyService {
  import opened Wrappers
  import opened Debounce

  /** The `serviceName` getter; `serviceId` returns the same value. */
  const ServiceName: string := "kronos"
  const ServiceId: string := ServiceName

  /** The delay the 'stepRegistered' listener passes to `update`. */
  const StepRegisteredDelay: int := 1000

  datatype CheckRecord = CheckRecord(id: string, http: string, interval: string, timeout: string)

  /** The record the `serviceDefinition` getter builds. */
  datatype DefinitionRecord = DefinitionRecord(
    name: string, serviceid: string, check: CheckRecord, port: int, tags: seq<string>,
    notes: Option<string>)

  /** The record `registerService` passes to `agent.service.register`. */
  datatype RegistrationRecord = RegistrationRecord(name: string, serviceid: string, tags: seq<string>)

  /** The `checkDefinition` getter; `url` is the service's own `this.url`. */
  function CheckDefinition(url: string): (c: CheckRecord)
    ensures c.id == ServiceName + "-check" && c.http == url
    ensures c.interval == "10s" && c.timeout == "1s"
  {
    CheckRecord(ServiceName + "-check", url, "10s", "1s")
  }

  /** The `serviceDefinition` getter. */
  function ServiceDefinition(url: string, port: int, tags: seq<string>, notes: Option<string>): (d: DefinitionRecord)
    ensures d.name == ServiceName && d.serviceid == ServiceId && d.serviceid == d.name
    ensures d.check == CheckDefinition(url)
    ensures d.port == port && d.tags == tags && d.notes == notes
  {
    DefinitionRecord(ServiceName, ServiceId, CheckDefinition(url), port, tags, notes)
  }

  /** The record of `registerService(name, options)`: the URL doubles as the service id. */
  function RegistrationDefinition(name: string, url: string, tags: seq<string>): (r: RegistrationRecord)
    ensures r.name == name && r.serviceid == url && r.tags == tags
  {
    RegistrationRecord(name, url, tags)
  }

  /**
   * Every legacy instance registers the same id and the same check id, whatever its URL, so two
   * instances cannot be told apart by the registry.
   */
  lemma DefinitionsIgnoreInstance(u1: string, u2: string, p1: int, p2: int,
                                  t1: seq<string>, t2: seq<string>, n1: Option<string>, n2: Option<string>)
    ensures ServiceDefinition(u1, p1, t1, n1).serviceid == ServiceDefinition(u2, p2, t2, n2).serviceid
    ensures ServiceDefinition(u1, p1, t1, n1).check.id == ServiceDefinition(u2, p2, t2, n2).check.id == "kronos-check"
  {
  }

  /** Registrations made by `registerService` with the same URL share their id, whatever the name. */
  lemma RegistrationIdIsUrl(n1: string, n2: string, url: string, t1: seq<string>, t2: seq<string>)
    ensures RegistrationDefinition(n1, url, t1).serviceid == RegistrationDefinition(n2, url, t2).serviceid
    ensures n1 != n2 ==> RegistrationDefinition(n1, url, t1) != RegistrationDefinition(n2, url, t2)
  {
  }

  /** A registry call issued by the legacy service. */
  datatype LegacyCall =
    | Register(definition: DefinitionRecord)      // agent.service.register(serviceDefinition)
    | RegisterOther(record: RegistrationRecord)   // agent.service.register from registerService
    | DeregisterWithoutId                         // agent.service.deregister() with no id

  class LegacyConsulService {
    /** `this.url`, `this.port` and `this.notes`. */
    const url: string
    const port: int
    const notes: Option<string>

    /** `this.tags`: the raw step names. */
    var tags: seq<string>
    /** `this._updateTimer`, and the runtime's table of timers. */
    var updateTimer: Option<TimerId>
    var pendingTimers: set<TimerId>
    var nextTimer: TimerId
    /** Whether the owner holds the 'stepRegistered' listener. */
    var subscribed: bool
    /** The registry calls issued so far, oldest first. */
    var calls: seq<LegacyCall>

    function Definition(): DefinitionRecord
      reads this
    {
      ServiceDefinition(url, port, tags, notes)
    }

    function TimerState(): Timers
      reads this
    {
      Timers(updateTimer, pendingTimers, nextTimer)
    }

    ghost predicate Valid()
      reads this
    {
      Debounced(TimerState())
    }

    constructor (url: string, port: int, notes: Option<string>)
      ensures Valid() && this.url == url && this.port == port && this.notes == notes
      ensures tags == [] && TimerState() == NoTimers() && !subscribed && calls == []
    {
      this.url, this.port, this.notes := url, port, notes;
      tags, updateTimer, pendingTimers, nextTimer := [], None, {}, 0;
      subscribed, calls := false, [];
    }

    /**
     * `_start`: the tags are the raw step names (`Object.keys(this.owner.steps)`); register, and
     * only once that succeeds (`registered`) install the 'stepRegistered' listener.
     */
    method Start(stepNames: seq<string>, registered: bool)
      requires Valid()
      modifies this
      ensures Valid()
      ensures tags == stepNames
      ensures calls == old(calls) + [Register(Definition())]
      ensures subscribed == (registered || old(subscribed))
      ensures TimerState() == old(TimerState())
    {
      tags := stepNames;
      calls := calls + [Register(Definition())];
      if registered {
        subscribed := true;
      }
    }

    /** `_stop`: deregister (with no id), then remove the listener once that succeeds. */
    method Stop(deregistered: bool)
      requires Valid()
      modifies this
      ensures Valid()
      ensures calls == old(calls) + [DeregisterWithoutId]
      ensures subscribed == (old(subscribed) && !deregistered)
      ensures tags == old(tags) && TimerState() == old(TimerState())
    {
      calls := calls + [DeregisterWithoutId];
      if deregistered {
        subscribed := false;
      }
    }

    /**
     * `update(delay)`: a truthy delay cancels the stored timer and stores a new one; delay 0
     * leaves any pending timer to fire and runs the action at once. That action issues
     * `deregister()` and then, evaluating the argument of `.then`, calls
     * `this.consulDefinition()`, which the class does not define: `update(0)` throws a
     * TypeError and nothing is registered.
     */
    method Update(delay: int) returns (r: Result<(), JsError>)
      requires Valid()
      modifies this
      ensures Valid()
      ensures var u := LegacyUpdate(old(TimerState()), delay);
        TimerState() == u.timers && (r == Failure(TypeError) <==> u.immediate)
      ensures r.Success? ==> r == Success(())
      ensures calls == old(calls) + (if delay == 0 then [DeregisterWithoutId] else [])
      ensures tags == old(tags) && subscribed == old(subscribed)
    {
      if delay != 0 {
        LegacyUpdateSchedules(TimerState(), delay);
        if updateTimer.Some? {
          pendingTimers := pendingTimers - {updateTimer.value};
        }
        updateTimer := Some(nextTimer);
        pendingTimers := pendingTimers + {nextTimer};
        nextTimer := nextTimer + 1;
        r := Success(());
      } else {
        calls := calls + [DeregisterWithoutId];
        r := Failure(TypeError);
      }
    }

    /**
     * The runtime fires timer `timer`; its callback runs only when the timer is still
     * pending. Like `update(0)` it issues `deregister()` and then throws a TypeError on
     * `this.consulDefinition()`, so nothing is registered.
     */
    method FireTimer(timer: TimerId) returns (fired: bool)
      requires Valid()
      modifies this
      ensures Valid()
      ensures var r := Fire(old(TimerState()), timer);
        TimerState() == r.timers && fired == r.fired
      ensures calls == old(calls) + (if fired then [DeregisterWithoutId] else [])
      ensures tags == old(tags) && subscribed == old(subscribed)
    {
      FireKeepsDebounced(TimerState(), timer);
      fired := timer in pendingTimers;
      pendingTimers := pendingTimers - {timer};
      if fired {
        calls := calls + [DeregisterWithoutId];
      }
    }

    /** The owner emits 'stepRegistered': the listener sets the raw step names and calls `update(1000)`. */
    method StepRegistered(stepNames: seq<string>)
      requires Valid()
      modifies this
      ensures Valid()
      ensures subscribed == old(subscribed) && calls == old(calls)
      ensures old(subscribed) ==>
        (tags == stepNames &&
         TimerState() == LegacyUpdate(old(TimerState()), StepRegisteredDelay).timers)
      ensures !old(subscribed) ==> tags == old(tags) && TimerState() == old(TimerState())
    {
      if subscribed {
        tags := stepNames;
        var _ := Update(StepRegisteredDelay);
      }
    }

    /** `registerService(name, options)`. */
    method RegisterService(name: string, url: string, tags: seq<string>)
      modifies this`calls
      ensures calls == old(calls) + [RegisterOther(RegistrationDefinition(name, url, tags))]
    {
      calls := calls + [RegisterOther(RegistrationDefinition(name, url, tags))];
    }
  }
}
