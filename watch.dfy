/**
 * The two watch-toggle endpoints of src/service-consul.mjs: the generic endpoint built by
 * `createWatchEndpoint` (used for `kv` and `checks`) and the hand-written `nodes` endpoint.
 * Each owns one optional watch handle. The registry side is abstract: a watch is a numbered
 * handle, `created` counts the watches made so far and `ended` lists, in order, the handles
 * on which `end()` was called.
 */
module Watch {
  import opened Wrappers

  /** Watch handles are numbered in creation order, starting at 0. */
  type Handle = nat

  /**
   * The value of `request.update` as the source tests it: by truthiness
   * (`request.update && ...`) and by strict comparison (`request.update === false`).
   */
  datatype UpdateFlag =
    | UpdateTrue   // any truthy value, `true` among them
    | UpdateFalse  // exactly `false`
    | UpdateFalsy  // absent (`undefined`), `null`, `0`, `NaN` or `""`

  /** A request is either a falsy value (no object at all) or an object with an `update` field. */
  datatype Request = FalsyRequest | Request(update: UpdateFlag)

  /** The events an endpoint reacts to. */
  datatype Event = Received(request: Request) | Opened | Closed

  /** The captured `watch` variable together with the registry's record of watches. */
  datatype WatchState = WatchState(watch: Option<Handle>, created: nat, ended: seq<Handle>)

  function Initial(): WatchState {
    WatchState(None, 0, [])
  }

  /**
   * A watch is live when it was created and `end()` was never called on it: its
   * 'change' listener still forwards data to the opposite endpoint.
   */
  predicate IsLive(s: WatchState, h: Handle) {
    h < s.created && h !in s.ended
  }

  /** Every handle ever ended was created, and none was ended twice. */
  predicate EndedOnce(s: WatchState) {
    (forall i | 0 <= i < |s.ended| :: s.ended[i] < s.created) &&
    (forall i, j | 0 <= i < j < |s.ended| :: s.ended[i] != s.ended[j])
  }

  /** Invariant of both endpoints: the held handle, if any, is the newest watch and is live. */
  predicate Consistent(s: WatchState) {
    EndedOnce(s) &&
    (s.watch.Some? ==> s.watch.value + 1 == s.created && IsLive(s, s.watch.value))
  }

  /** The stronger invariant of the `nodes` endpoint: the held watch is the only live one. */
  ghost predicate SingleWatch(s: WatchState) {
    Consistent(s) && forall h: Handle :: IsLive(s, h) <==> s.watch == Some(h)
  }

  /**
   * `watch = <new watch>` (the generic `hasBeenOpened` as evidently intended, and the
   * `nodes` receive): a fresh handle replaces whatever was held, which is not ended.
   */
  function CreateWatch(s: WatchState): (r: WatchState)
    ensures r.watch == Some(s.created) && r.created == s.created + 1 && r.ended == s.ended
    ensures forall h: Handle | IsLive(s, h) :: IsLive(r, h)
    ensures EndedOnce(s) ==>
      Consistent(r) && forall h: Handle :: IsLive(r, h) <==> IsLive(s, h) || h == s.created
  {
    WatchState(Some(s.created), s.created + 1, s.ended)
  }

  /** Ending a live watch keeps every watch ended at most once. */
  lemma EndLiveKeepsEndedOnce(s: WatchState, h: Handle)
    ensures EndedOnce(s) && IsLive(s, h) ==> EndedOnce(WatchState(None, s.created, s.ended + [h]))
  {
    if EndedOnce(s) && IsLive(s, h) {
      var e := s.ended + [h];
      forall i, j | 0 <= i < j < |e| ensures e[i] != e[j] {
        if j == |s.ended| {
          assert e[i] == s.ended[i];
        }
      }
    }
  }

  /**
   * `if (watch) { watch.end(); watch = undefined; }` (both `willBeClosed` hooks, the generic
   * one as evidently intended, and `receive({update: false})`): the held watch stops being
   * live, every other watch keeps its state, and the invariant is kept.
   */
  function EndHeld(s: WatchState): (r: WatchState)
    ensures r.watch == None && r.created == s.created
    ensures r.ended == if s.watch.Some? then s.ended + [s.watch.value] else s.ended
    ensures forall h: Handle :: IsLive(r, h) <==> IsLive(s, h) && s.watch != Some(h)
    ensures Consistent(s) ==> Consistent(r)
  {
    match s.watch
    case None => s
    case Some(h) =>
      EndLiveKeepsEndedOnce(s, h);
      WatchState(None, s.created, s.ended + [h])
  }

  /** `receive` of the generic endpoint: the `update` branch that would start a watch is empty. */
  function GenericReceive(s: WatchState, request: Request): (r: WatchState)
    ensures r.created == s.created
    ensures r != s ==> request == Request(UpdateFalse) && s.watch.Some? && r.watch.None?
    ensures Consistent(s) ==> Consistent(r)
  {
    if request.Request? then
      if request.update == UpdateTrue && s.watch.None? then s
      else if request.update == UpdateFalse && s.watch.Some? then EndHeld(s)
      else s
    else s
  }

  /** `receive` of the `nodes` endpoint: a truthy `update` starts a watch when none is held. */
  function NodesReceive(s: WatchState, request: Request): (r: WatchState)
    ensures r.created == s.created + (if request == Request(UpdateTrue) && s.watch.None? then 1 else 0)
    ensures request == Request(UpdateTrue) ==> r.watch.Some?
    ensures request == Request(UpdateFalse) ==> r.watch.None?
    ensures Consistent(s) ==> Consistent(r)
  {
    if request.Request? then
      if request.update == UpdateTrue && s.watch.None? then CreateWatch(s)
      else if request.update == UpdateFalse && s.watch.Some? then EndHeld(s)
      else s
    else s
  }

  /** One event on the generic endpoint, with its hooks as evidently intended. */
  function GenericStep(s: WatchState, e: Event): WatchState {
    match e
    case Received(request) => GenericReceive(s, request)
    case Opened => CreateWatch(s)
    case Closed => EndHeld(s)
  }

  /** One event on the `nodes` endpoint; its `hasBeenOpened` only traces. */
  function NodesStep(s: WatchState, e: Event): WatchState {
    match e
    case Received(request) => NodesReceive(s, request)
    case Opened => s
    case Closed => EndHeld(s)
  }

  function NodesRun(s: WatchState, events: seq<Event>): WatchState
    decreases |events|
  {
    if events == [] then s else NodesRun(NodesStep(s, events[0]), events[1..])
  }

  function GenericRun(s: WatchState, events: seq<Event>): WatchState
    decreases |events|
  {
    if events == [] then s else GenericRun(GenericStep(s, events[0]), events[1..])
  }

  // ---------------------------------------------------------------------------
  // The generic endpoint's hooks as written. They are arrow functions inside the plain
  // function `createWatchEndpoint`, so their `this` is that function's `this`, which is
  // `undefined` in an ES module; `this.identifier` throws before the watch is touched.

  /** What a lifecycle hook of the generic endpoint does as written: it throws, changing nothing. */
  function GenericHookAsWritten(s: WatchState): (r: (WatchState, Result<(), JsError>))
    ensures r.0 == s && r.1 == Failure(TypeError)
  {
    (s, Failure(TypeError))
  }

  function GenericStepAsWritten(s: WatchState, e: Event): WatchState {
    match e
    case Received(request) => GenericReceive(s, request)
    case Opened => GenericHookAsWritten(s).0
    case Closed => GenericHookAsWritten(s).0
  }

  function GenericRunAsWritten(s: WatchState, events: seq<Event>): WatchState
    decreases |events|
  {
    if events == [] then s else GenericRunAsWritten(GenericStepAsWritten(s, events[0]), events[1..])
  }

  /** As written, the generic endpoint never creates a watch, whatever happens to it. */
  lemma {:induction false} GenericAsWrittenNeverWatches(s: WatchState, events: seq<Event>)
    requires s.watch.None?
    ensures GenericRunAsWritten(s, events) == s
    decreases |events|
  {
    if events != [] {
      assert GenericStepAsWritten(s, events[0]) == s;
      GenericAsWrittenNeverWatches(s, events[1..]);
    }
  }

  // ---------------------------------------------------------------------------
  // Properties shared by both endpoints.

  /** `receive({update: false})` with a held watch ends exactly that watch and clears the handle. */
  lemma ReceiveFalseEndsWatch(s: WatchState)
    requires Consistent(s) && s.watch.Some?
    ensures GenericReceive(s, Request(UpdateFalse)) == NodesReceive(s, Request(UpdateFalse))
    ensures GenericReceive(s, Request(UpdateFalse)).watch == None
    ensures GenericReceive(s, Request(UpdateFalse)).ended == s.ended + [s.watch.value]
    ensures !IsLive(GenericReceive(s, Request(UpdateFalse)), s.watch.value)
  {
  }

  /** A falsy request, or one whose `update` is neither truthy nor `false`, changes nothing. */
  lemma FalsyRequestKeepsState(s: WatchState, request: Request)
    requires request == FalsyRequest || request.update == UpdateFalsy
    ensures GenericReceive(s, request) == s && NodesReceive(s, request) == s
  {
  }

  /**
   * Only `update: false` can change the state of either endpoint through `receive`, plus
   * `update: true` on a `nodes` endpoint that holds no watch.
   */
  lemma ReceiveChanges(s: WatchState, request: Request)
    ensures GenericReceive(s, request) != s <==> request == Request(UpdateFalse) && s.watch.Some?
    ensures NodesReceive(s, request) != s <==>
              (request == Request(UpdateFalse) && s.watch.Some?) ||
              (request == Request(UpdateTrue) && s.watch.None?)
  {
    if request.Request? && request.update == UpdateFalse && s.watch.Some? {
      assert |GenericReceive(s, request).ended| == |s.ended| + 1;
    }
  }

  /** `willBeClosed` ends any held watch and leaves none held. */
  lemma CloseEndsWatch(s: WatchState)
    requires Consistent(s)
    ensures EndHeld(s).watch == None && Consistent(EndHeld(s))
    ensures s.watch.Some? ==> !IsLive(EndHeld(s), s.watch.value)
    ensures forall h: Handle | s.watch != Some(h) :: IsLive(EndHeld(s), h) == IsLive(s, h)
  {
  }

  // ---------------------------------------------------------------------------
  // The generic endpoint.

  /** Every generic event preserves `Consistent`. */
  lemma GenericStepConsistent(s: WatchState, e: Event)
    requires Consistent(s)
    ensures Consistent(GenericStep(s, e))
  {
  }

  /** Only opening creates a watch on the generic endpoint; `receive` and closing never do. */
  lemma {:induction false} GenericOnlyOpenCreates(s: WatchState, events: seq<Event>)
    requires forall i | 0 <= i < |events| :: events[i] != Opened
    ensures GenericRun(s, events).created == s.created
    decreases |events|
  {
    if events != [] {
      assert GenericStep(s, events[0]).created == s.created;
      GenericOnlyOpenCreates(GenericStep(s, events[0]), events[1..]);
    }
  }

  /** Opening overwrites a held handle without ending it: the old watch stays live, unheld. */
  lemma GenericOpenLeaks(s: WatchState)
    requires Consistent(s) && s.watch.Some?
    ensures IsLive(CreateWatch(s), s.watch.value)
    ensures CreateWatch(s).watch == Some(s.created) != s.watch
    ensures !SingleWatch(CreateWatch(s))
  {
    assert IsLive(CreateWatch(s), s.watch.value) && CreateWatch(s).watch != Some(s.watch.value);
  }

  /** As evidently intended, opening starts a live watch and closing ends that same watch. */
  lemma GenericOpenThenClose(s: WatchState)
    requires Consistent(s)
    ensures IsLive(CreateWatch(s), s.created) && CreateWatch(s).watch == Some(s.created)
    ensures EndHeld(CreateWatch(s)).watch == None
    ensures EndHeld(CreateWatch(s)).ended == s.ended + [s.created]
  {
  }

  // ---------------------------------------------------------------------------
  // The `nodes` endpoint.

  /** Every `nodes` event preserves `SingleWatch`: at most one watch is ever live. */
  lemma NodesStepSingleWatch(s: WatchState, e: Event)
    requires SingleWatch(s)
    ensures SingleWatch(NodesStep(s, e))
  {
    var r := NodesStep(s, e);
    if e.Received? && e.request.Request? && e.request.update == UpdateTrue && s.watch.None? {
      forall h: Handle ensures IsLive(r, h) <==> r.watch == Some(h) {
        if h < s.created {
          assert !IsLive(s, h);
        }
      }
    }
  }

  /** Any run of `nodes` events keeps at most one live watch, the held one. */
  lemma {:induction false} NodesRunSingleWatch(s: WatchState, events: seq<Event>)
    requires SingleWatch(s)
    ensures SingleWatch(NodesRun(s, events))
    decreases |events|
  {
    if events != [] {
      NodesStepSingleWatch(s, events[0]);
      NodesRunSingleWatch(NodesStep(s, events[0]), events[1..]);
    }
  }

  /**
   * Two consecutive `receive({update: true})` calls on `nodes` leave one held watch, the
   * only live one, and create at most one watch between them.
   */
  lemma NodesReceiveTrueTwice(s: WatchState)
    requires SingleWatch(s)
    ensures var r := NodesReceive(NodesReceive(s, Request(UpdateTrue)), Request(UpdateTrue));
      r.watch.Some? && SingleWatch(r) &&
      r.created == s.created + (if s.watch.None? then 1 else 0) &&
      r == NodesReceive(s, Request(UpdateTrue))
  {
    NodesStepSingleWatch(s, Received(Request(UpdateTrue)));
  }

  /** Opening the `nodes` endpoint creates nothing; only `receive({update: true})` does. */
  lemma NodesOnlyReceiveCreates(s: WatchState, e: Event)
    ensures NodesStep(s, e).created != s.created <==>
              e == Received(Request(UpdateTrue)) && s.watch.None?
  {
  }

  // ---------------------------------------------------------------------------
  // The endpoints as objects.

  /**
   * An endpoint made by `createWatchEndpoint`; `D` is the type of what its data provider
   * returns (a dictionary for `kv`, the health-check list for `checks`).
   */
  class GenericEndpoint<D> {
    const name: string
    /** The captured `watch` variable. */
    var watch: Option<Handle>
    /** The registry's side: watches made by `makeWatch` so far and the handles ended, in order. */
    var created: nat
    var ended: seq<Handle>

    function State(): WatchState
      reads this
    {
      WatchState(watch, created, ended)
    }

    /** The held handle, if any, is the newest watch, and no watch was ended twice. */
    ghost predicate Valid()
      reads this
    {
      Consistent(State())
    }

    constructor (name: string)
      ensures this.name == name && State() == Initial() && Valid()
    {
      this.name := name;
      watch, created, ended := None, 0, [];
    }

    /** `ep.receive(request)`; `provided` is what the data provider returns for this call. */
    method Receive(request: Request, provided: D) returns (r: D)
      requires Valid()
      modifies this
      ensures Valid() && r == provided
      ensures State() == GenericReceive(old(State()), request)
    {
      GenericStepConsistent(State(), Received(request));
      if request.Request? {
        if request.update == UpdateTrue && watch.None? {
        } else if request.update == UpdateFalse && watch.Some? {
          ended := ended + [watch.value];
          watch := None;
        }
      }
      r := provided;
    }

    /** `hasBeenOpened` as evidently intended; as written it throws (`GenericHookAsWritten`). */
    method HasBeenOpened()
      requires Valid()
      modifies this
      ensures Valid() && State() == CreateWatch(old(State()))
    {
      GenericStepConsistent(State(), Opened);
      watch := Some(created);
      created := created + 1;
    }

    /** `willBeClosed` as evidently intended; as written it throws (`GenericHookAsWritten`). */
    method WillBeClosed()
      requires Valid()
      modifies this
      ensures Valid() && State() == EndHeld(old(State()))
    {
      GenericStepConsistent(State(), Closed);
      if watch.Some? {
        ended := ended + [watch.value];
        watch := None;
      }
    }
  }

  /** The `nodes` endpoint; `D` is the type of what `kronosNodes()` returns. */
  class NodesEndpoint<D> {
    var watch: Option<Handle>
    var created: nat
    var ended: seq<Handle>

    function State(): WatchState
      reads this
    {
      WatchState(watch, created, ended)
    }

    /** At most one watch is live, and it is the held one. */
    ghost predicate Valid()
      reads this
    {
      SingleWatch(State())
    }

    constructor ()
      ensures State() == Initial() && Valid()
    {
      watch, created, ended := None, 0, [];
    }

    /** `nodesEndpoint.receive(request)`; `nodes` is what `kronosNodes()` returns for this call. */
    method Receive(request: Request, nodes: D) returns (r: D)
      requires Valid()
      modifies this
      ensures Valid() && r == nodes
      ensures State() == NodesReceive(old(State()), request)
    {
      NodesStepSingleWatch(State(), Received(request));
      if request.Request? {
        if request.update == UpdateTrue && watch.None? {
          watch := Some(created);
          created := created + 1;
        } else if request.update == UpdateFalse && watch.Some? {
          ended := ended + [watch.value];
          watch := None;
        }
      }
      r := nodes;
    }

    /** `hasBeenOpened` only traces. */
    method HasBeenOpened()
      requires Valid()
      ensures Valid() && State() == old(State())
    {
    }

    method WillBeClosed()
      requires Valid()
      modifies this
      ensures Valid() && State() == EndHeld(old(State()))
    {
      NodesStepSingleWatch(State(), Closed);
      if watch.Some? {
        ended := ended + [watch.value];
        watch := None;
      }
    }
  }
}
