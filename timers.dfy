/**
 * The debounce timer behind `update(delay)`. `setTimeout`/`clearTimeout` are modelled as a
 * table of pending timers: `field` is the `_updateTimer` field, `pending` the timers that were
 * scheduled and neither cleared nor fired, and `next` the id the next `setTimeout` returns.
 * Two variants: the one of src/service-consul.mjs and the legacy one of service.js.
 */
module Debounce {
  import opened Wrappers

  type TimerId = nat

  datatype Timers = Timers(field: Option<TimerId>, pending: set<TimerId>, next: TimerId)

  /**
   * What `update` did: the new timer table, and whether it started the deregister/register
   * action at once instead of scheduling it.
   */
  datatype UpdateResult = UpdateResult(timers: Timers, immediate: bool)

  /** What firing a timer did: the new timer table, and whether its callback ran. */
  datatype FireResult = FireResult(timers: Timers, fired: bool)

  function NoTimers(): Timers {
    Timers(None, {}, 0)
  }

  /** A pending timer is always the one stored in the field, and ids are fresh. */
  predicate Debounced(t: Timers) {
    (forall id | id in t.pending :: t.field == Some(id)) &&
    (t.field.Some? ==> t.field.value < t.next)
  }

  /** `clearTimeout(id)`: that timer can no longer fire; nothing else changes. */
  function ClearTimeout(t: Timers, id: TimerId): (r: Timers)
    ensures r.pending == t.pending - {id} && r.field == t.field && r.next == t.next
    ensures id !in r.pending
    ensures Debounced(t) ==> Debounced(r)
  {
    t.(pending := t.pending - {id})
  }

  /** `_updateTimer = setTimeout(reregister, delay)`. */
  function SetTimeout(t: Timers): (r: Timers)
    ensures r.field == Some(t.next) && r.pending == t.pending + {t.next} && r.next == t.next + 1
    ensures Debounced(t) ==> t.next !in t.pending
    ensures t.pending == {} && Debounced(t) ==> Debounced(r) && r.pending == {t.next}
  {
    Timers(Some(t.next), t.pending + {t.next}, t.next + 1)
  }

  /** `if (this._updateTimer) clearTimeout(this._updateTimer)`; the field keeps its value. */
  function CancelStored(t: Timers): (r: Timers)
    ensures r.field == t.field && r.next == t.next
    ensures r.pending == if t.field.Some? then t.pending - {t.field.value} else t.pending
    ensures Debounced(t) ==> Debounced(r) && r.pending == {}
  {
    if t.field.Some? then ClearTimeout(t, t.field.value) else t
  }

  /** `update(delay)` of src/service-consul.mjs: always cancel, then schedule or run now. */
  function Update(t: Timers, delay: int): (r: UpdateResult)
    ensures r.immediate <==> delay == 0
    ensures r.timers.next == t.next + (if delay != 0 then 1 else 0)
    ensures Debounced(t) ==> Debounced(r.timers)
    ensures Debounced(t) ==> r.timers.pending == if delay != 0 then {t.next} else {}
  {
    var cleared := CancelStored(t);
    if delay != 0 then UpdateResult(SetTimeout(cleared), false)
    else UpdateResult(cleared, true)
  }

  /** `update(delay)` of service.js: cancel and reschedule only for a truthy delay. */
  function LegacyUpdate(t: Timers, delay: int): (r: UpdateResult)
    ensures r.immediate <==> delay == 0
    ensures delay == 0 ==> r.timers == t
    ensures Debounced(t) ==> Debounced(r.timers)
    ensures Debounced(t) && delay != 0 ==> r.timers.pending == {t.next} && r.timers.field == Some(t.next)
  {
    if delay != 0 then UpdateResult(SetTimeout(CancelStored(t)), false)
    else UpdateResult(t, true)
  }

  /** The runtime fires timer `id`: its callback runs only when it is still pending. */
  function Fire(t: Timers, id: TimerId): (r: FireResult)
    ensures r.timers.field == t.field && r.timers.next == t.next
    ensures r.fired <==> id in t.pending
    ensures id !in r.timers.pending && r.timers.pending == t.pending - {id}
    ensures Debounced(t) ==> Debounced(r.timers)
    ensures Debounced(t) && r.fired ==> t.field == Some(id) && r.timers.pending == {}
  {
    FireResult(t.(pending := t.pending - {id}), id in t.pending)
  }

  /** A run of `update` calls of src/service-consul.mjs, oldest first. */
  function Updates(t: Timers, delays: seq<int>): Timers
    decreases |delays|
  {
    if delays == [] then t else Updates(Update(t, delays[0]).timers, delays[1..])
  }

  /** A run of `update` calls of service.js, oldest first. */
  function LegacyUpdates(t: Timers, delays: seq<int>): Timers
    decreases |delays|
  {
    if delays == [] then t else LegacyUpdates(LegacyUpdate(t, delays[0]).timers, delays[1..])
  }

  function CountTruthy(delays: seq<int>): nat
    decreases |delays|
  {
    if delays == [] then 0 else (if delays[0] != 0 then 1 else 0) + CountTruthy(delays[1..])
  }

  // ---------------------------------------------------------------------------
  // src/service-consul.mjs

  /** `update` cancels the stored timer for every delay, 0 included, and keeps the invariant. */
  lemma UpdateAlwaysCancels(t: Timers, delay: int)
    requires Debounced(t)
    ensures Debounced(Update(t, delay).timers)
    ensures t.field.Some? ==> t.field.value !in Update(t, delay).timers.pending
    ensures forall id | id in t.pending :: id !in Update(t, delay).timers.pending
  {
  }

  /** A truthy delay leaves exactly one pending timer, the newly stored one, and defers the work. */
  lemma UpdateSchedules(t: Timers, delay: int)
    requires Debounced(t) && delay != 0
    ensures var r := Update(t, delay);
      !r.immediate && r.timers.field == Some(t.next) &&
      r.timers.pending == {t.next} && r.timers.next == t.next + 1
  {
    assert t.pending - (if t.field.Some? then {t.field.value} else {}) == {};
  }

  /** Delay 0 runs the deregister/register action at once and leaves no timer pending. */
  lemma UpdateZeroRunsNow(t: Timers)
    requires Debounced(t)
    ensures Update(t, 0).immediate && Update(t, 0).timers.pending == {}
  {
    assert t.pending - (if t.field.Some? then {t.field.value} else {}) == {};
  }

  /** Firing keeps the invariant; after firing, nothing is pending. */
  lemma FireKeepsDebounced(t: Timers, id: TimerId)
    requires Debounced(t)
    ensures Debounced(Fire(t, id).timers)
    ensures Fire(t, id).fired ==> t.field == Some(id) && Fire(t, id).timers.pending == {}
  {
    if id in t.pending {
      assert t.pending == {id};
    }
  }

  /** Any run of `update` calls keeps the invariant and uses one fresh id per truthy delay. */
  lemma {:induction false} UpdatesDebounced(t: Timers, delays: seq<int>)
    requires Debounced(t)
    ensures Debounced(Updates(t, delays))
    ensures Updates(t, delays).next == t.next + CountTruthy(delays)
    decreases |delays|
  {
    if delays != [] {
      UpdateAlwaysCancels(t, delays[0]);
      UpdatesDebounced(Update(t, delays[0]).timers, delays[1..]);
    }
  }

  /**
   * Of a burst of `update` calls whose last delay is truthy, only the timer that the last call
   * scheduled is pending: every timer scheduled before it is cancelled and firing it does nothing.
   */
  lemma {:induction false} OnlyLastScheduledFires(t: Timers, delays: seq<int>)
    requires Debounced(t) && |delays| > 0 && delays[|delays| - 1] != 0
    ensures var r := Updates(t, delays);
      r.next == t.next + CountTruthy(delays) &&
      r.field == Some(r.next - 1) && r.pending == {r.next - 1} &&
      (forall id: TimerId | id < r.next - 1 :: !Fire(r, id).fired) &&
      Fire(r, r.next - 1).fired
    decreases |delays|
  {
    if |delays| == 1 {
      UpdateSchedules(t, delays[0]);
      assert Updates(t, delays) == Update(t, delays[0]).timers;
    } else {
      UpdateAlwaysCancels(t, delays[0]);
      OnlyLastScheduledFires(Update(t, delays[0]).timers, delays[1..]);
    }
  }

  // ---------------------------------------------------------------------------
  // service.js

  /** A truthy delay cancels the stored timer and stores a new one, the only one pending. */
  lemma LegacyUpdateSchedules(t: Timers, delay: int)
    requires Debounced(t) && delay != 0
    ensures var r := LegacyUpdate(t, delay);
      !r.immediate && r.timers.field == Some(t.next) && r.timers.pending == {t.next} &&
      Debounced(r.timers)
  {
    assert t.pending - (if t.field.Some? then {t.field.value} else {}) == {};
  }

  /** Delay 0 leaves the timers alone, so a timer scheduled before still fires. */
  lemma LegacyUpdateZeroKeepsTimer(t: Timers)
    requires Debounced(t)
    ensures LegacyUpdate(t, 0).immediate && LegacyUpdate(t, 0).timers == t
    ensures Debounced(LegacyUpdate(t, 0).timers)
    ensures t.field.Some? && t.field.value in t.pending ==>
              Fire(LegacyUpdate(t, 0).timers, t.field.value).fired
  {
  }

  /** Any run of legacy `update` calls keeps the invariant. */
  lemma {:induction false} LegacyUpdatesDebounced(t: Timers, delays: seq<int>)
    requires Debounced(t)
    ensures Debounced(LegacyUpdates(t, delays))
    decreases |delays|
  {
    if delays != [] {
      if delays[0] != 0 {
        LegacyUpdateSchedules(t, delays[0]);
      }
      LegacyUpdatesDebounced(LegacyUpdate(t, delays[0]).timers, delays[1..]);
    }
  }

  /**
   * The two variants part on a zero delay: with a re-registration scheduled, `update(0)` of
   * src/service-consul.mjs cancels it, while that of service.js lets it fire as well.
   */
  lemma ZeroDelayVariantsDiffer(t: Timers)
    requires Debounced(t) && t.field.Some? && t.field.value in t.pending
    ensures !Fire(Update(t, 0).timers, t.field.value).fired
    ensures Fire(LegacyUpdate(t, 0).timers, t.field.value).fired
  {
  }

  /** For a truthy delay the two variants behave alike. */
  lemma VariantsAgreeOnTruthyDelay(t: Timers, delay: int)
    requires delay != 0
    ensures Update(t, delay) == LegacyUpdate(t, delay)
  {
  }
}
