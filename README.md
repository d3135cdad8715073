# kronos-service-manager-consul: a Dafny model of the Consul bridge bookkeeping

This project models the in-process bookkeeping of the Kronos `consul` service. The library
runs inside a Kronos service manager. It registers the manager with Consul and keeps that
registration's tags up to date. It also exposes Consul watches and the key/value store through
Kronos endpoints, and resolves peer URLs stored in Consul's key/value namespace. Every Consul
call is an opaque action here. A watch is a numbered handle. A registry call is a recorded
`Call` value. A timer is an entry in an abstract timer table, and an abstract "fire" step
runs its callback.

The model covers four parts of `src/service-consul.mjs` and the matching parts of the older
`service.js`:

- **Watch endpoints** (`watch.dfy`, module `Watch`). There are two kinds:
  - the generic endpoint built by `createWatchEndpoint`, used for `kv` and `checks`;
  - the hand-written `nodes` endpoint.

  Each kind is a pure transition model over the endpoint's one optional watch handle, plus a
  class that holds the captured `watch` variable. The two kinds differ:
  - The generic `receive({update: true})` does nothing. As written, the generic open and
    close hooks throw a TypeError before they touch the watch, so the generic endpoint never
    gets a watch (see "## Findings"). With the hooks as evidently intended, a watch is
    created only when the endpoint opens, and opening overwrites (leaks) a watch already
    held. The rest of that part of the model describes the hooks as intended.
  - The `nodes` `receive({update: true})` creates a watch only when none is held. Opening a
    `nodes` endpoint creates nothing.

  The lemmas prove that `nodes` never has more than one live watch. They also prove that
  `update: false` ends the held watch, that a falsy request changes nothing, and that closing
  always ends the watch.
- **Debounced re-registration** (`timers.dfy`, module `Debounce`). This models `update(delay)`
  in both versions over a single `_updateTimer` field:
  - In `src/service-consul.mjs` every call cancels the stored timer, delay 0 included.
  - In `service.js` only calls with a non-zero delay cancel it. Its deregister/register
    action issues `deregister()` and then throws a TypeError on `this.consulDefinition()`,
    which the class does not define, so it never registers.

  The lemmas prove that only the most recently scheduled timer can fire. They also show where
  the two versions part.
- **Round-robin URL generator** (`resolver.dfy`, module `Resolver`). `serviceURLs` becomes an
  explicit iterator with the phases Pending, Stuck, Cycling and Finished. It holds a fixed
  snapshot and a cursor, and issues `kv.get` exactly once. Element `k` is
  `snapshot[k mod |snapshot|]`. An empty snapshot gives one rejected element and then ends. A
  failed fetch yields the same rejection forever.
- **Record and string builders** (`definitions.dfy`, `kv.dfy`, `legacy_service.dfy`). These are
  `serviceDefinition`, `asSeconds` and `updateTags`, the dictionary built by the `kv` data
  provider, and the key paths of `registerService`, `unregisterService` and `serviceURLs`. For
  `service.js` they are `serviceDefinition`, `checkDefinition` and the `registerService`
  record.

The service objects are in `service_consul.dfy` (`ServiceConsul.ConsulService`) and
`legacy_service.dfy` (`LegacyService.LegacyConsulService`). They hold tags, the timer,
the listener bookkeeping and the log of calls. Each method's contract ties the object's new
state to the pure functions above.

Inputs that come from outside are parameters:
- the data provider's result and `kronosNodes()`;
- the answer to `kv.get`;
- `Object.keys(this.owner.steps)`;
- whether a registration or deregistration call succeeded, and when a deregister issued
  by `reregister` settles (`ServiceConsul.ConsulService.DeregisterSettled`).

Three behaviours of the code worth noting:
- On shutdown, `_stop` (src/service-consul.mjs:374-381) leaves the debounce timer alone. A
  re-registration scheduled before the service stops still fires afterwards
  (`ServiceConsul.ReregistrationSurvivesStop`).
- The generic endpoint's `receive({update: true})` starts no watch (src/service-consul.mjs:49).
  Only the `nodes` endpoint starts a watch from `receive`.
- `unregisterService` deletes under `this.id`, while `registerService` writes under
  `owner.id`. The recursive delete removes every key with that string prefix. So it removes
  the registered key exactly when `this.id` is a prefix of `owner.id + "/url"`. It can also
  remove the keys of other instances whose ids start with `this.id`.

## Model

| member | source | states |
|---|---|---|
| `Watch.CreateWatch` | src/service-consul.mjs:35 | creating a watch holds a fresh handle; every watch live before stays live (a held one is not ended); with the invariant, the live watches are exactly the old ones plus the new one |
| `Watch.EndHeld` | src/service-consul.mjs:23-26 | `watch.end(); watch = undefined`: no watch is held afterwards, the held one stops being live and every other watch keeps its state; the invariant is kept |
| `Watch.GenericReceive` | src/service-consul.mjs:47-57 | the generic `receive` never creates a watch; it changes the state only for `update === false` with a watch held, which it then ends; it keeps the invariant |
| `Watch.NodesReceive` | src/service-consul.mjs:109-131 | the `nodes` `receive` creates a watch exactly for a truthy `update` with none held; afterwards a truthy `update` leaves a watch held and `update === false` none; it keeps the invariant |
| `Watch.GenericAsWrittenNeverWatches` | src/service-consul.mjs:17-43 | as written the open/close hooks throw a TypeError on `this.identifier` before touching the watch, so no sequence of receive/open/close events ever gives the generic endpoint a watch |
| `Watch.ReceiveFalseEndsWatch` | src/service-consul.mjs:47-57 | `receive({update:false})` with a held watch ends that watch and clears the handle, the same on both endpoints |
| `Watch.FalsyRequestKeepsState` | src/service-consul.mjs:47-57 | a falsy request, or one whose `update` is missing or falsy but not `false`, changes neither endpoint |
| `Watch.ReceiveChanges` | src/service-consul.mjs:109-131 | `receive` changes the generic endpoint iff `update === false` and a watch is held; `nodes` also changes on a truthy `update` with no watch held |
| `Watch.CloseEndsWatch` | src/service-consul.mjs:90-100 | `willBeClosed` leaves no watch held, the former one is no longer live, and every other watch keeps its state |
| `Watch.GenericStepConsistent` | src/service-consul.mjs:10-60 | with the hooks as intended, every generic event keeps the held handle the newest live watch and never ends a handle twice |
| `Watch.GenericOnlyOpenCreates` | src/service-consul.mjs:29-57 | on the generic endpoint, any run of events without an open creates no watch |
| `Watch.GenericOpenLeaks` | src/service-consul.mjs:29-43 | with the open hook as intended, opening overwrites a held handle without ending it: the old watch stays live and unheld, so two watches are live |
| `Watch.GenericOpenThenClose` | src/service-consul.mjs:17-43 | with the hooks as intended, opening starts a live watch and closing ends that same watch |
| `Watch.NodesStepSingleWatch` | src/service-consul.mjs:88-131 | every `nodes` event keeps the held watch the only live one |
| `Watch.NodesRunSingleWatch` | src/service-consul.mjs:88-131 | any sequence of `nodes` events keeps at most one live watch, the held one |
| `Watch.NodesReceiveTrueTwice` | src/service-consul.mjs:111-123 | two consecutive `receive({update:true})` on `nodes` leave exactly one watch, with at most one created |
| `Watch.NodesOnlyReceiveCreates` | src/service-consul.mjs:101-123 | a `nodes` event creates a watch iff it is `receive({update:true})` with none held; opening creates nothing |
| `Watch.GenericEndpoint.constructor` | src/service-consul.mjs:10-15 | a new generic endpoint holds no watch and no watch exists yet |
| `Watch.GenericEndpoint.Receive` | src/service-consul.mjs:47-57 | returns the data provider's result; the new state is the generic receive transition of the old |
| `Watch.GenericEndpoint.HasBeenOpened` | src/service-consul.mjs:29-43 | as intended: the new state is the old with a fresh watch held, and the invariant is kept |
| `Watch.GenericEndpoint.WillBeClosed` | src/service-consul.mjs:17-27 | as intended: the new state is the old with the held watch ended, and the invariant is kept |
| `Watch.NodesEndpoint.constructor` | src/service-consul.mjs:86-88 | a new `nodes` endpoint holds no watch and satisfies the single-watch invariant |
| `Watch.NodesEndpoint.Receive` | src/service-consul.mjs:109-131 | returns the `kronosNodes()` result; the new state is the `nodes` receive transition and keeps a single live watch |
| `Watch.NodesEndpoint.HasBeenOpened` | src/service-consul.mjs:101-106 | opening changes nothing |
| `Watch.NodesEndpoint.WillBeClosed` | src/service-consul.mjs:90-100 | ends the held watch and keeps the single-watch invariant |
| `Debounce.CancelStored` | src/service-consul.mjs:393-395 | `if (this._updateTimer) clearTimeout(...)`: with the debounce invariant, no timer is pending afterwards and the invariant is kept |
| `Debounce.Update` | src/service-consul.mjs:387-402 | the action runs at once iff the delay is 0; a truthy delay uses one fresh timer; with the invariant, afterwards only the newly stored timer is pending (none for delay 0) |
| `Debounce.LegacyUpdate` | service.js:144-154 | the action runs at once iff the delay is 0, and then the timers are left as they were; a truthy delay leaves only the newly stored timer pending; the invariant is kept |
| `Debounce.Fire` | src/service-consul.mjs:398 | a timer's callback runs iff the timer is still pending, after which it is not; with the invariant, a timer that fires is the stored one and leaves nothing pending |
| `Debounce.UpdateAlwaysCancels` | src/service-consul.mjs:387-402 | `update` cancels the stored timer and every pending timer for every delay, 0 included, and keeps the debounce invariant |
| `Debounce.UpdateSchedules` | src/service-consul.mjs:397-398 | a truthy delay defers the work and leaves exactly one pending timer, the one now stored |
| `Debounce.UpdateZeroRunsNow` | src/service-consul.mjs:399-401 | delay 0 runs `reregister` at once and leaves no timer pending |
| `Debounce.FireKeepsDebounced` | src/service-consul.mjs:387-402 | firing keeps the invariant; a timer that fires was the stored one and nothing stays pending |
| `Debounce.UpdatesDebounced` | src/service-consul.mjs:387-402 | any run of `update` calls keeps the invariant and uses one fresh timer per truthy delay |
| `Debounce.OnlyLastScheduledFires` | src/service-consul.mjs:387-402 | after a burst of `update` calls ending in a truthy delay, only the last scheduled timer is pending: earlier ones cannot fire, the last one does |
| `Debounce.LegacyUpdateSchedules` | service.js:145-150 | in service.js a truthy delay cancels the stored timer and stores a new one, the only one pending |
| `Debounce.LegacyUpdateZeroKeepsTimer` | service.js:151-153 | in service.js delay 0 starts the deregister/register action at once and leaves the timers alone, so a pending timer still fires |
| `Debounce.LegacyUpdatesDebounced` | service.js:144-154 | any run of service.js `update` calls keeps the debounce invariant |
| `Debounce.ZeroDelayVariantsDiffer` | service.js:151-153 | with a re-registration pending, `update(0)` cancels it in src/service-consul.mjs but lets it fire in service.js |
| `Debounce.VariantsAgreeOnTruthyDelay` | service.js:145-150 | for a truthy delay both versions of `update` behave alike |
| `Definitions.NatToString` | src/service-consul.mjs:270 | a number renders as a non-empty string of decimal digits without leading zeros |
| `Definitions.NatToStringRoundTrip` | src/service-consul.mjs:270 | reading the rendered digits back gives the number |
| `Definitions.IntToString` | src/service-consul.mjs:270 | `${n}` of an integer: a sign for negatives, then decimal digits that read back as the magnitude |
| `Definitions.AsSecondsAsWritten` | src/service-consul.mjs:267-271 | as written: fails (TypeError) iff the value is a `String` object; otherwise the result ends in `s`, and a primitive string always grows by one character, even when it already ends in `s` |
| `Definitions.AsSecondsAsWrittenDoublesSuffix` | src/service-consul.mjs:267-271 | as written, `"10s"` becomes `"10ss"` and `new String("10s")` throws |
| `Definitions.AsSeconds` | src/service-consul.mjs:267-271 | as intended: the result always ends in `s`; a number gets `s` appended, a string keeps an existing `s` suffix |
| `Definitions.AsSecondsIdempotent` | src/service-consul.mjs:267-271 | formatting a formatted duration changes nothing, and for numbers it agrees with the code as written |
| `Definitions.DefaultDurations` | src/service-consul.mjs:219-228 | the default interval 10 and timeout 5 become `"10s"` and `"5s"` |
| `Definitions.ServiceDefinition` | src/service-consul.mjs:273-285 | as intended: name `kronos`, id the owner's id, the listener's port and address, the current tags, `check.id == check.http == listener.url + checkPath`, and interval and timeout formatted by the corrected `asSeconds` |
| `Definitions.ServiceDefinitionAsWritten` | src/service-consul.mjs:266-286 | the getter as written: it throws iff a duration is a `String` object, and otherwise differs from the intended record only in the interval and timeout as the written `asSeconds` formats them |
| `Definitions.ServiceDefinitionAsWrittenOnNumbers` | src/service-consul.mjs:266-286 | with numeric durations the getter as written gives exactly the intended record |
| `Definitions.ServiceDefinitionAsWrittenDoublesSuffix` | src/service-consul.mjs:282-283 | as written an interval of `"10s"` is registered as `"10ss"` (intended: `"10s"`), and a `String` object throws |
| `Definitions.CheckIdsDistinguishListeners` | src/service-consul.mjs:279-281 | listeners with different URLs get different check ids for the same check path |
| `Definitions.StepTags` | src/service-consul.mjs:288-290 | one tag `step:<name>` per step name, in key order, with the same count |
| `Definitions.StepTagsRoundTrip` | src/service-consul.mjs:288-290 | every tag carries the `step:` prefix and stripping it gives back the step names |
| `Definitions.StepTagsOfSteps` | src/service-consul.mjs:288-290 | steps a, b, c give the tags `step:a`, `step:b`, `step:c` |
| `Kv.ServiceKey` | src/service-consul.mjs:476 | `services/{name}` lies under `services/` and the name can be read back from it |
| `Kv.InstanceKey` | src/service-consul.mjs:464 | `services/{name}/{id}` lies under the service's subtree and the id can be read back from it |
| `Kv.RegisteredKey` | src/service-consul.mjs:436-438 | the registered key `services/{name}/{owner.id}/url` lies under both `services/{name}` and `services/{name}/{owner.id}` |
| `Kv.DeleteCoversRegisteredKey` | src/service-consul.mjs:463-466 | deleting under `this.id` covers the key registered under `owner.id` iff `this.id` is a prefix of `owner.id + "/url"`, in particular when the ids coincide |
| `Kv.RegisterThenUnregister` | src/service-consul.mjs:436-466 | after `registerService` then `unregisterService`, the registered key is gone iff the delete covers it |
| `Kv.UnregisterWithOtherIdKeepsKey` | src/service-consul.mjs:463-466 | with ids `consul` and `node1` the registration survives unregistering |
| `Kv.UnregisterRemovesSiblingPrefix` | src/service-consul.mjs:463-466 | unregistering id `a` also removes the key registered by owner `ab` |
| `Kv.KvDictionary` | src/service-consul.mjs:149-160 | an undefined `r[0]` gives the empty dictionary; otherwise the keys are exactly the entries' keys and each maps to the value of its last entry |
| `Resolver.UrlsOf` | src/service-consul.mjs:480 | the snapshot holds each entry's value, in fetch order |
| `Resolver.Advance` | src/service-consul.mjs:491-494 | the cursor moves to `(cursor + 1) mod size`, within the snapshot |
| `Resolver.Step` | src/service-consul.mjs:471-500 | one `next()` keeps the generator's invariant (one fetch, cursor within the snapshot) and never changes a snapshot once taken |
| `Resolver.Run` | src/service-consul.mjs:471-500 | after any number of calls the generator's invariant holds |
| `Resolver.StepCycling` | src/service-consul.mjs:491-497 | in the cycling phase a call advances the cursor and yields the URL it lands on |
| `Resolver.RunCycling` | src/service-consul.mjs:490-497 | after `k + 1` calls on a non-empty snapshot the cursor is `k mod |snapshot|` |
| `Resolver.RoundRobin` | src/service-consul.mjs:471-500 | with a non-empty snapshot `si`, element `k` is `si[k mod |si|]` for every `k` |
| `Resolver.EmptySnapshot` | src/service-consul.mjs:479-499 | an empty snapshot makes the first element reject; every later call reports the generator done |
| `Resolver.FailedFetch` | src/service-consul.mjs:474-488 | a failed fetch makes every element the same rejection |
| `Resolver.FetchedOnce` | src/service-consul.mjs:474-483 | `kv.get` is issued exactly once per generator instance, on the first call |
| `Resolver.SnapshotFixed` | src/service-consul.mjs:474-499 | after the first call, later fetch answers are ignored and the snapshot never changes |
| `Resolver.ServiceUrls.constructor` | src/service-consul.mjs:471-472 | a new generator has not fetched and holds an empty snapshot |
| `Resolver.ServiceUrls.Next` | src/service-consul.mjs:474-499 | the new state and the element produced are those of one `next()` of the pure model |
| `ServiceConsul.ConsulService.constructor` | src/service-consul.mjs:81-86 | a new service has no tags, no timer, no listener and has issued no call |
| `ServiceConsul.ConsulService.Definition` | src/service-consul.mjs:266-286 | the definition read now carries the owner's id, the listener's port, address and URL, the current tags and an interval ending in `s` |
| `ServiceConsul.ConsulService.UpdateTags` | src/service-consul.mjs:288-290 | the tags become the `step:` tags of the current step names |
| `ServiceConsul.ConsulService.Start` | src/service-consul.mjs:296-368 | tags are computed; one register call stands for the retry loop of up to 5 attempts, and `registered` for its outcome; the listener is installed only when registration succeeds |
| `ServiceConsul.ConsulService.Stop` | src/service-consul.mjs:374-381 | deregisters by the owner's id; the listener is removed only after that succeeds; the timer is untouched |
| `ServiceConsul.ConsulService.Update` | src/service-consul.mjs:387-402 | the timers follow the `.mjs` `update`; delay 0 issues the deregister by the owner's id at once, the register waiting for it to settle |
| `ServiceConsul.ConsulService.FireTimer` | src/service-consul.mjs:388-398 | a pending timer fires once and issues the deregister of `reregister`, the register waiting for it to settle; any other timer does nothing |
| `ServiceConsul.ConsulService.DeregisterSettled` | src/service-consul.mjs:388-391 | when a deregister of `reregister` resolves, its register carries the definition as it is at that moment; when it rejects nothing is registered |
| `ServiceConsul.ConsulService.StepRegistered` | src/service-consul.mjs:325-328 | with the listener installed, the tags are recomputed and `update(5000)` is applied; otherwise nothing changes |
| `ServiceConsul.ConsulService.RegisterService` | src/service-consul.mjs:436-439 | issues `kv.set` of `services/{name}/{owner.id}/url` with the URL |
| `ServiceConsul.ConsulService.UnregisterService` | src/service-consul.mjs:463-466 | issues a recursive delete of `services/{name}/{this.id}` |
| `ServiceConsul.ConsulService.ServiceUrls` | src/service-consul.mjs:471-500 | each call gives a new, independent generator that has not fetched yet |
| `ServiceConsul.TopologyChangeReregistersOnce` | src/service-consul.mjs:325-328 | two 'stepRegistered' events in a burst give exactly one re-registration, with the tags `step:a`, `step:b`, `step:c` |
| `ServiceConsul.ReregistrationSurvivesStop` | src/service-consul.mjs:374-381 | a re-registration scheduled before `_stop` still registers the service after it deregistered |
| `ServiceConsul.TagsChangedWhileDeregistering` | src/service-consul.mjs:387-402 | with `update(0)`, a topology change that arrives before the deregister resolves is in the registered tags |
| `LegacyService.CheckDefinition` | service.js:66-73 | check id `kronos-check`, `http` the service URL, interval `10s`, timeout `1s` |
| `LegacyService.ServiceDefinition` | service.js:47-64 | `name == serviceid == "kronos"`, check the check definition, and the port, tags and notes given |
| `LegacyService.RegistrationDefinition` | service.js:169-173 | `registerService` builds `{name, serviceid: options.url, tags: options.tags}` |
| `LegacyService.DefinitionsIgnoreInstance` | service.js:47-73 | every instance registers the same service id and check id, whatever its URL |
| `LegacyService.RegistrationIdIsUrl` | service.js:169-173 | registrations with the same URL share their id, whatever their names |
| `LegacyService.LegacyConsulService.constructor` | service.js:39-45 | a new legacy service has no tags, no timer, no listener and has issued no call |
| `LegacyService.LegacyConsulService.Start` | service.js:79-127 | the tags are the raw step names; one register call; the listener is installed only when registration succeeds |
| `LegacyService.LegacyConsulService.Stop` | service.js:133-138 | deregisters without an id; the listener is removed once that succeeds |
| `LegacyService.LegacyConsulService.Update` | service.js:144-154 | the timers follow the service.js `update`; delay 0 issues `deregister()` and then fails with a TypeError on the missing `this.consulDefinition`, registering nothing |
| `LegacyService.LegacyConsulService.FireTimer` | service.js:149-150 | a timer's callback runs iff it is still pending; it issues `deregister()` and then throws on the missing `this.consulDefinition`, registering nothing |
| `LegacyService.LegacyConsulService.StepRegistered` | service.js:105-108 | with the listener installed the tags become the raw step names and `update(1000)` is applied |
| `LegacyService.LegacyConsulService.RegisterService` | service.js:162-179 | issues one register call with the `registerService` record |

## Left out

- Consul client calls (`agent.service.register`/`deregister`, `kv.get`/`set`/`del`, `health.checks`, `catalog.service.nodes`, `watch`): opaque. Watches are numbered handles, and other calls are `Call` records or parameters.
- The `promisify` adapters and the lazy `consul` getter: glue around a foreign library.
- The `PromiseRepeat` retry in `_start`: its semantics live in a library that is not part of this model. Only the options `MaxAttempts` (5) and `Throttle` (2000) are recorded. `Start`'s `registered` flag stands for the outcome of the whole retry loop.
- The Koa health route, the health-check probe, `defineServiceConsumerProperties` and `listener.start`: external collaborators.
- Real time: `setTimeout`/`clearTimeout` are entries in a timer table, and firing is an explicit step. No wall-clock reasoning.
- `configurationAttributes`/`_configure` option plumbing; the `name`, `type` and `autostart` getters.
- Logging (`trace`, `info`, `error`, `console.log`). The `change`/`error` listeners of a watch are not modelled beyond "live". A live watch is one whose `change` listener still forwards data.
- Durations that are non-integer numbers: `Duration` numbers are integers.
- `update` delays that are `undefined` or `NaN`: a delay is an integer, and 0 stands for every falsy delay.
- Dictionary keys that are JavaScript's special property names, such as `__proto__`: the `kv` dictionary is a plain map.
- The order in which `kv.get` lists entries. The entries are a parameter of `Resolver.ServiceUrls.Next`.
- Consumers of `serviceURLs` that call `next()` before the previous element settled. Such a call would yield the pending promise again.
- ServiceConsul.ConsulService.Update: the deregister's id comes from the intended getter, which never throws (see the `Definitions.ServiceDefinition` line).
- ServiceConsul.ConsulService.Definition: built on the intended `Definitions.ServiceDefinition`, with the same gaps as that line lists.
- Definitions.ServiceDefinition: uses the corrected `asSeconds` (see "## Findings"; the getter as written is `Definitions.ServiceDefinitionAsWritten`). So for a string duration the model registers `"10s"` where the source registers `"10ss"`. Where the source's getter throws on a `String` object, the model yields a record; in the source `_start`, `_stop`, `update` and the `nodes` receive then throw too.
- Definitions.ServiceDefinition: reading the getter before `defineServiceConsumerProperties` has set `listener` throws in the source; in the model the listener is a constructor constant.
- Definitions.IntToString: renders every integer in full decimal digits; JavaScript's `${n}` switches to exponent form from 1e21.
- Consul's key/value store and the timer runtime are foreign code, so `Kv.KvSet`, `Kv.KvDeleteTree`, `Debounce.ClearTimeout` and `Debounce.SetTimeout` have no row. They are the model's assumptions about that code: `kv.set` is a map update, a recursive `kv.del` removes every key with the prefix, and `setTimeout`/`clearTimeout` add and remove entries of the timer table.
- Watch.GenericStepConsistent: holds for the generic hooks as evidently intended. As written, the hooks throw before touching the watch (see "## Findings"), so the state never changes (`Watch.GenericAsWrittenNeverWatches`).
- Watch.GenericOpenLeaks: describes the open hook as evidently intended. As written it throws at src/service-consul.mjs:31 before line 35, so nothing leaks.
- Watch.GenericEndpoint.HasBeenOpened: models the hook as evidently intended. As written it throws a TypeError at src/service-consul.mjs:31 without creating a watch.
- Watch.GenericEndpoint.WillBeClosed: models the hook as evidently intended. As written it throws a TypeError at src/service-consul.mjs:19 without ending the watch.
- Watch.NodesEndpoint.HasBeenOpened: assumes the endpoint library calls the `nodes` hooks, which are method shorthand calling `this.trace`, with a `this` that has `trace`. The same holds for `Watch.NodesEndpoint.WillBeClosed`.
- ServiceConsul.ConsulService.Start: a second successful start without a stop installs a second listener in the source. The model keeps one flag.
- LegacyService.LegacyConsulService.Update: the `deregister()` it issues is recorded, but its settling is not. The TypeError is thrown before `.then` is reached, whatever the deregister does.
- LegacyService.LegacyConsulService.FireTimer: the TypeError the timer callback throws is uncaught in the runtime; the model records the deregister and returns.
- LegacyService.LegacyConsulService.Stop: removing a listener that was never installed (`removeListener` with `undefined`) is not modelled.
- service.js: the raft leader/peer logging, `registerServiceAs`, `kronosNodes` and `registerWithManager`.

## Findings

| source | as written | input that shows it | evidently intended | confidence | as-written member | corrected member |
|---|---|---|---|---|---|---|
| src/service-consul.mjs:267-271 | `value instanceof String` is false for primitive strings, so every string gets another `s`. For a `String` object the test calls `value.matches`, which strings do not have, and throws. | `checkInterval` set to `"10s"` registers interval `"10ss"`; `new String("10s")` throws a TypeError | keep a string that already ends in `s`, otherwise append `s` | high; not executed | `Definitions.AsSecondsAsWrittenDoublesSuffix` | `Definitions.AsSecondsIdempotent` |
| src/service-consul.mjs:17-43 | the `willBeClosed` and `hasBeenOpened` hooks are arrow functions inside the plain function `createWatchEndpoint`, so `this` is `undefined` in this ES module; `this.identifier` throws before the watch is created or ended | opening or closing the `kv` or `checks` endpoint | opening creates the watch, closing ends it | medium (assumes the endpoint library calls the hooks as given); not executed | `Watch.GenericAsWrittenNeverWatches` | `Watch.GenericOpenThenClose` |
