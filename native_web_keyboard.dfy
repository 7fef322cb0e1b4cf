/** The browser-side keyboard emulator: it infers that an on-screen keyboard
    appeared or disappeared from changes of the viewport height together with
    the kind of element that holds focus, and notifies "did show" and
    "did hide" subscribers.

    The pure parts (the element classifier and the step functions over a
    `State` record) specify the class `Detector`, whose methods update the
    same state in place, as the module variables of the source do. */
module NativeWebKeyboard {
  import opened Wrappers

  /** A subscriber callback. Two ids are equal exactly when the callbacks are
      the same function object (`===`). */
  type CallbackId = nat

  /** A DOM element as the detector sees it: its node identity `id`, its tag
      name and, for an `INPUT`, its `type` attribute as read at the moment the
      element is observed. The attribute may change while the node stays the
      same, so node identity is the `id` alone. */
  datatype Element = Element(id: nat, tagName: string, inputType: string)

  /** Node identity of two optional elements (the source's `===` on DOM
      nodes, or on `null`): both absent, or both present with the same `id`. */
  predicate SameNode(a: Option<Element>, b: Option<Element>)
  {
    match a
    case None => b.None?
    case Some(x) => b.Some? && b.value.id == x.id
  }

  const INPUT_TAG := "INPUT"
  const TEXTAREA_TAG := "TEXTAREA"

  const KEYBOARD_DID_SHOW := "keyboardDidShow"
  const KEYBOARD_DID_HIDE := "keyboardDidHide"
  const INVALID_EVENT_MESSAGE := "Invalid eventName passed to addListener()"

  /** Whether `element` solicits an on-screen keyboard. `keyboardTypes` is the
      application's configured set of input types that bring up a keyboard. */
  predicate IsInputKeyboardType(element: Option<Element>, keyboardTypes: set<string>)
  {
    match element
    case None => false
    case Some(e) =>
      (e.tagName == INPUT_TAG && e.inputType in keyboardTypes) || e.tagName == TEXTAREA_TAG
  }

  /** The public visibility query: classifies the currently focused element. */
  predicate IsVisible(activeElement: Option<Element>, keyboardTypes: set<string>)
  {
    IsInputKeyboardType(activeElement, keyboardTypes)
  }

  lemma KeyboardTypeClassification(element: Option<Element>, keyboardTypes: set<string>)
    ensures element.None? ==> !IsInputKeyboardType(element, keyboardTypes)
    ensures element.Some? && element.value.tagName == TEXTAREA_TAG ==>
              IsInputKeyboardType(element, keyboardTypes)
    ensures element.Some? && element.value.tagName == INPUT_TAG ==>
              (IsInputKeyboardType(element, keyboardTypes) <==> element.value.inputType in keyboardTypes)
    ensures element.Some? && element.value.tagName != INPUT_TAG && element.value.tagName != TEXTAREA_TAG ==>
              !IsInputKeyboardType(element, keyboardTypes)
  {
  }

  /** The two event kinds a subscriber may register for. */
  datatype EventKind = DidShow | DidHide

  /** What the unsubscribe closure returned by `addListener` captures. */
  datatype Handle = Handle(kind: EventKind, callback: CallbackId)

  datatype Error = InvalidArgument(message: string)

  /** The detector's state: the two ordered registries, the "service running"
      flag, the number of live attachments of the resize handler to the
      viewport, and the snapshot (last recorded height and focused element). */
  datatype State = State(
    showListeners: seq<CallbackId>,
    hideListeners: seq<CallbackId>,
    running: bool,
    attachCount: nat,
    prevHeight: int,
    lastActive: Option<Element>)

  /** The state at module load: nothing registered, nothing attached, the
      snapshot holding the viewport height of that moment and no element. */
  function InitialState(initialHeight: int): State
  {
    State([], [], false, 0, initialHeight, None)
  }

  /** The detector's invariant: the resize handler is attached exactly once
      while the service runs and never otherwise, and the service runs exactly
      when some subscriber is registered. */
  predicate Consistent(s: State)
  {
    && s.attachCount == (if s.running then 1 else 0)
    && (s.running <==> (s.showListeners != [] || s.hideListeners != []))
  }

  lemma InitialStateConsistent(initialHeight: int)
    ensures Consistent(InitialState(initialHeight))
    ensures !InitialState(initialHeight).running && InitialState(initialHeight).attachCount == 0
  {
  }

  // ---------------------------------------------------------------------------
  // addListener

  /** What `addListener` returns: an error for an unknown event name or a
      missing callback, otherwise the unsubscribe handle. */
  function AddOutcome(eventName: string, callback: Option<CallbackId>): Result<Handle, Error>
  {
    if (eventName != KEYBOARD_DID_SHOW && eventName != KEYBOARD_DID_HIDE) || callback.None? then
      Err(InvalidArgument(INVALID_EVENT_MESSAGE))
    else
      Ok(Handle(if eventName == KEYBOARD_DID_SHOW then DidShow else DidHide, callback.value))
  }

  /** Starting the listening service: set the flag and attach the handler. */
  function StartService(s: State): State
  {
    s.(running := true, attachCount := s.attachCount + 1)
  }

  /** The state after `addListener(eventName, callback)`. */
  function AfterAdd(s: State, eventName: string, callback: Option<CallbackId>): State
  {
    match AddOutcome(eventName, callback)
    case Err(_) => s
    case Ok(h) =>
      var registered :=
        if h.kind == DidShow then s.(showListeners := s.showListeners + [h.callback])
        else s.(hideListeners := s.hideListeners + [h.callback]);
      if registered.running then registered else StartService(registered)
  }

  lemma AddRejectsInvalidArguments(s: State, eventName: string, callback: Option<CallbackId>)
    ensures AddOutcome(eventName, callback).Err? <==>
              (eventName != KEYBOARD_DID_SHOW && eventName != KEYBOARD_DID_HIDE) || callback.None?
    ensures AddOutcome(eventName, callback).Err? ==>
              AddOutcome(eventName, callback).error == InvalidArgument(INVALID_EVENT_MESSAGE)
              && AfterAdd(s, eventName, callback) == s
  {
  }

  lemma AddShowAppends(s: State, callback: CallbackId)
    ensures AddOutcome(KEYBOARD_DID_SHOW, Some(callback)) == Ok(Handle(DidShow, callback))
    ensures AfterAdd(s, KEYBOARD_DID_SHOW, Some(callback)).showListeners == s.showListeners + [callback]
    ensures AfterAdd(s, KEYBOARD_DID_SHOW, Some(callback)).hideListeners == s.hideListeners
    ensures AfterAdd(s, KEYBOARD_DID_SHOW, Some(callback)).running
    ensures AfterAdd(s, KEYBOARD_DID_SHOW, Some(callback)).prevHeight == s.prevHeight
    ensures AfterAdd(s, KEYBOARD_DID_SHOW, Some(callback)).lastActive == s.lastActive
  {
  }

  lemma AddHideAppends(s: State, callback: CallbackId)
    ensures AddOutcome(KEYBOARD_DID_HIDE, Some(callback)) == Ok(Handle(DidHide, callback))
    ensures AfterAdd(s, KEYBOARD_DID_HIDE, Some(callback)).hideListeners == s.hideListeners + [callback]
    ensures AfterAdd(s, KEYBOARD_DID_HIDE, Some(callback)).showListeners == s.showListeners
    ensures AfterAdd(s, KEYBOARD_DID_HIDE, Some(callback)).running
    ensures AfterAdd(s, KEYBOARD_DID_HIDE, Some(callback)).prevHeight == s.prevHeight
    ensures AfterAdd(s, KEYBOARD_DID_HIDE, Some(callback)).lastActive == s.lastActive
  {
  }

  /** The handler is attached on the transition from not running to running
      and never a second time while the service runs. */
  lemma AddAttachesOnlyOnStart(s: State, eventName: string, callback: Option<CallbackId>)
    requires Consistent(s)
    requires AddOutcome(eventName, callback).Ok?
    ensures Consistent(AfterAdd(s, eventName, callback))
    ensures AfterAdd(s, eventName, callback).attachCount == 1
    ensures s.running ==> AfterAdd(s, eventName, callback).attachCount == s.attachCount
    ensures !s.running ==> AfterAdd(s, eventName, callback).attachCount == s.attachCount + 1
  {
  }

  // ---------------------------------------------------------------------------
  // handleViewportResize

  /** The callbacks the resize handler invokes, in order, for a viewport of
      height `newHeight` while `active` holds focus: the "did show" registry
      when the viewport shrank onto a newly focused keyboard element, then the
      "did hide" registry when it grew while no keyboard element has focus. */
  function Fired(s: State, newHeight: int, active: Option<Element>, keyboardTypes: set<string>): seq<CallbackId>
  {
    (if newHeight < s.prevHeight && IsInputKeyboardType(active, keyboardTypes) && !SameNode(active, s.lastActive)
     then s.showListeners else [])
    + (if newHeight > s.prevHeight && !IsVisible(active, keyboardTypes) then s.hideListeners else [])
  }

  /** The state after the resize handler ran: only the snapshot changes. */
  function AfterResize(s: State, newHeight: int, active: Option<Element>): State
  {
    s.(prevHeight := newHeight, lastActive := active)
  }

  lemma ShrinkFiresShowListeners(s: State, newHeight: int, active: Option<Element>, keyboardTypes: set<string>)
    requires newHeight < s.prevHeight
    ensures Fired(s, newHeight, active, keyboardTypes) ==
              if IsInputKeyboardType(active, keyboardTypes) && !SameNode(active, s.lastActive) then s.showListeners else []
  {
  }

  lemma GrowFiresHideListeners(s: State, newHeight: int, active: Option<Element>, keyboardTypes: set<string>)
    requires newHeight > s.prevHeight
    ensures Fired(s, newHeight, active, keyboardTypes) ==
              if !IsInputKeyboardType(active, keyboardTypes) then s.hideListeners else []
  {
  }

  lemma EqualHeightFiresNothing(s: State, active: Option<Element>, keyboardTypes: set<string>)
    ensures Fired(s, s.prevHeight, active, keyboardTypes) == []
  {
  }

  lemma AtMostOneRegistryFires(s: State, newHeight: int, active: Option<Element>, keyboardTypes: set<string>)
    ensures var fired := Fired(s, newHeight, active, keyboardTypes);
            fired == [] || fired == s.showListeners || fired == s.hideListeners
  {
  }

  lemma ResizeRefreshesSnapshot(s: State, newHeight: int, active: Option<Element>)
    ensures AfterResize(s, newHeight, active).prevHeight == newHeight
    ensures AfterResize(s, newHeight, active).lastActive == active
    ensures AfterResize(s, newHeight, active).showListeners == s.showListeners
    ensures AfterResize(s, newHeight, active).hideListeners == s.hideListeners
    ensures AfterResize(s, newHeight, active).running == s.running
    ensures AfterResize(s, newHeight, active).attachCount == s.attachCount
    ensures Consistent(s) ==> Consistent(AfterResize(s, newHeight, active))
  {
  }

  /** A second resize to the same height with the same focus fires nothing:
      the snapshot the first one recorded makes the two equal. */
  lemma RepeatedResizeFiresNothing(s: State, newHeight: int, active: Option<Element>, keyboardTypes: set<string>)
    ensures Fired(AfterResize(s, newHeight, active), newHeight, active, keyboardTypes) == []
  {
  }

  /** Focus still on the recorded node never fires the "did show" registry,
      even when the node's `type` attribute changed since it was recorded:
      an `INPUT` recorded as a password field and now a text field, say. */
  lemma SameNodeNeverShows(s: State, newHeight: int, active: Option<Element>, keyboardTypes: set<string>)
    requires s.lastActive.Some? && active.Some? && active.value.id == s.lastActive.value.id
    ensures Fired(s, newHeight, active, keyboardTypes) ==
              if newHeight > s.prevHeight && !IsVisible(active, keyboardTypes) then s.hideListeners else []
  {
  }

  /** The viewport delivers a resize event to the handler only while it is
      attached; otherwise nothing runs and nothing changes. */
  function Dispatch(s: State, newHeight: int, active: Option<Element>, keyboardTypes: set<string>): seq<CallbackId>
  {
    if s.attachCount > 0 then Fired(s, newHeight, active, keyboardTypes) else []
  }

  function AfterDispatch(s: State, newHeight: int, active: Option<Element>): State
  {
    if s.attachCount > 0 then AfterResize(s, newHeight, active) else s
  }

  lemma DetachedDispatchIsInert(s: State, newHeight: int, active: Option<Element>, keyboardTypes: set<string>)
    requires Consistent(s) && !s.running
    ensures Dispatch(s, newHeight, active, keyboardTypes) == []
    ensures AfterDispatch(s, newHeight, active) == s
  {
  }

  // ---------------------------------------------------------------------------
  // The unsubscribe closure

  /** `registry.filter((fn) => fn !== callback)`: the registry without any
      occurrence of `callback`, the others kept in order. */
  function Without(registry: seq<CallbackId>, callback: CallbackId): (r: seq<CallbackId>)
    ensures callback !in r
    ensures forall other :: other != callback ==> multiset(r)[other] == multiset(registry)[other]
    ensures |r| <= |registry|
  {
    if registry == [] then []
    else
      assert registry == [registry[0]] + registry[1..];
      if registry[0] == callback then Without(registry[1..], callback)
      else [registry[0]] + Without(registry[1..], callback)
  }

  lemma {:induction false} WithoutAbsentIsIdentity(registry: seq<CallbackId>, callback: CallbackId)
    requires callback !in registry
    ensures Without(registry, callback) == registry
  {
    if registry != [] {
      WithoutAbsentIsIdentity(registry[1..], callback);
    }
  }

  lemma WithoutSingleton(x: CallbackId, callback: CallbackId)
    ensures Without([x], callback) == if x == callback then [] else [x]
  {
  }

  /** Filtering works piecewise, so the callbacks that stay keep their
      relative order. */
  lemma {:induction false} WithoutDistributes(front: seq<CallbackId>, back: seq<CallbackId>, callback: CallbackId)
    ensures Without(front + back, callback) == Without(front, callback) + Without(back, callback)
    decreases |front|
  {
    if front == [] {
      assert front + back == back;
    } else {
      assert (front + back)[0] == front[0];
      assert (front + back)[1..] == front[1..] + back;
      WithoutDistributes(front[1..], back, callback);
    }
  }

  /** The teardown guard of the closure: when the service runs and both
      registries are empty, detach the handler and clear the flag. */
  function Teardown(s: State): State
  {
    if s.running && |s.showListeners| == 0 && |s.hideListeners| == 0 then
      s.(running := false, attachCount := if s.attachCount > 0 then s.attachCount - 1 else 0)
    else s
  }

  /** The unsubscribe closure as written: the filtered registry is computed
      and dropped, so only the teardown guard can change anything. */
  function AfterUnsubscribe(s: State, handle: Handle): State
  {
    Teardown(s)
  }

  lemma UnsubscribeKeepsRegistries(s: State, handle: Handle)
    ensures AfterUnsubscribe(s, handle).showListeners == s.showListeners
    ensures AfterUnsubscribe(s, handle).hideListeners == s.hideListeners
    ensures AfterUnsubscribe(s, handle).prevHeight == s.prevHeight
    ensures AfterUnsubscribe(s, handle).lastActive == s.lastActive
  {
  }

  /** Under the invariant the teardown guard of the closure as written never
      holds, so the closure changes nothing at all. */
  lemma UnsubscribeNeverTearsDown(s: State, handle: Handle)
    requires Consistent(s)
    ensures AfterUnsubscribe(s, handle) == s
  {
  }

  /** A callback that subscribed and then called its unsubscribe handle is
      still invoked by the next qualifying shrink of the viewport. */
  lemma UnsubscribeKeepsCallback(s: State, callback: CallbackId, newHeight: int,
                                 active: Option<Element>, keyboardTypes: set<string>)
    requires Consistent(s)
    requires newHeight < s.prevHeight
    requires IsInputKeyboardType(active, keyboardTypes) && !SameNode(active, s.lastActive)
    ensures var t := AfterUnsubscribe(AfterAdd(s, KEYBOARD_DID_SHOW, Some(callback)), Handle(DidShow, callback));
            t.running && t.attachCount == 1 && callback in Dispatch(t, newHeight, active, keyboardTypes)
  {
  }

  /** The unsubscribe closure as intended: the filtered registry is assigned
      back before the teardown guard is checked. */
  function AfterUnsubscribeFixed(s: State, handle: Handle): State
  {
    var filtered :=
      if handle.kind == DidShow then s.(showListeners := Without(s.showListeners, handle.callback))
      else s.(hideListeners := Without(s.hideListeners, handle.callback));
    Teardown(filtered)
  }

  lemma UnsubscribeFixedRemovesCallback(s: State, handle: Handle)
    ensures var t := AfterUnsubscribeFixed(s, handle);
            && (handle.kind == DidShow ==> handle.callback !in t.showListeners && t.hideListeners == s.hideListeners)
            && (handle.kind == DidHide ==> handle.callback !in t.hideListeners && t.showListeners == s.showListeners)
            && (forall other :: other != handle.callback ==>
                  multiset(t.showListeners)[other] == multiset(s.showListeners)[other]
                  && multiset(t.hideListeners)[other] == multiset(s.hideListeners)[other])
            && t.prevHeight == s.prevHeight && t.lastActive == s.lastActive
  {
  }

  /** The registry a handle refers to. */
  function Registry(s: State, kind: EventKind): seq<CallbackId>
  {
    if kind == DidShow then s.showListeners else s.hideListeners
  }

  /** With the corrected closure, unsubscribing a callback registered once
      deletes exactly that entry: the callbacks before and after it stay, in
      subscription order. */
  lemma UnsubscribeFixedKeepsOrder(s: State, handle: Handle, front: seq<CallbackId>, back: seq<CallbackId>)
    requires Registry(s, handle.kind) == front + [handle.callback] + back
    requires handle.callback !in front && handle.callback !in back
    ensures Registry(AfterUnsubscribeFixed(s, handle), handle.kind) == front + back
  {
    var cb := handle.callback;
    WithoutDistributes(front + [cb], back, cb);
    WithoutDistributes(front, [cb], cb);
    WithoutAbsentIsIdentity(front, cb);
    WithoutAbsentIsIdentity(back, cb);
  }

  /** With the reassignment, the invariant is kept; once both registries are
      empty the handler is detached, and unsubscribing a callback that is not
      registered changes nothing. */
  lemma UnsubscribeFixedKeepsConsistent(s: State, handle: Handle)
    requires Consistent(s)
    ensures var t := AfterUnsubscribeFixed(s, handle);
            && Consistent(t)
            && (t.showListeners == [] && t.hideListeners == [] ==> !t.running && t.attachCount == 0)
  {
  }

  lemma UnsubscribeFixedAbsentIsNoOp(s: State, handle: Handle)
    requires Consistent(s)
    requires handle.kind == DidShow ==> handle.callback !in s.showListeners
    requires handle.kind == DidHide ==> handle.callback !in s.hideListeners
    ensures AfterUnsubscribeFixed(s, handle) == s
  {
    match handle.kind
    case DidShow => WithoutAbsentIsIdentity(s.showListeners, handle.callback);
    case DidHide => WithoutAbsentIsIdentity(s.hideListeners, handle.callback);
  }

  /** Unsubscribing the last remaining subscriber detaches the handler, after
      which a resize event invokes nothing. */
  lemma UnsubscribeFixedLastDetaches(s: State, callback: CallbackId, newHeight: int,
                                     active: Option<Element>, keyboardTypes: set<string>)
    requires Consistent(s)
    requires s.showListeners == [callback] && s.hideListeners == []
    ensures var t := AfterUnsubscribeFixed(s, Handle(DidShow, callback));
            && !t.running && t.attachCount == 0
            && Dispatch(t, newHeight, active, keyboardTypes) == []
            && AfterDispatch(t, newHeight, active) == t
  {
  }

  // ---------------------------------------------------------------------------
  // The detector object

  /** `listeners.forEach((fn) => fn())`: invokes each listener once, in
      registration order; the result is the log of the invocations. */
  method InvokeAll(listeners: seq<CallbackId>) returns (called: seq<CallbackId>)
    ensures called == listeners
  {
    called := [];
    var i := 0;
    while i < |listeners|
      invariant 0 <= i <= |listeners|
      invariant called == listeners[..i]
    {
      called := called + [listeners[i]];
      i := i + 1;
    }
  }

  /** The module state of the emulator as one object whose methods update its
      fields in place. */
  class Detector {
    /** The configured input types that bring up a keyboard. */
    const keyboardTypes: set<string>
    var showListeners: seq<CallbackId>
    var hideListeners: seq<CallbackId>
    var running: bool
    var attachCount: nat
    var prevHeight: int
    var lastActive: Option<Element>

    function Model(): State
      reads this
    {
      State(showListeners, hideListeners, running, attachCount, prevHeight, lastActive)
    }

    ghost predicate Valid()
      reads this
    {
      Consistent(Model())
    }

    constructor (keyboardTypes: set<string>, initialHeight: int)
      ensures Valid()
      ensures this.keyboardTypes == keyboardTypes
      ensures Model() == InitialState(initialHeight)
    {
      this.keyboardTypes := keyboardTypes;
      showListeners, hideListeners := [], [];
      running, attachCount := false, 0;
      prevHeight, lastActive := initialHeight, None;
    }

    /** `isVisible()` for the element that currently has focus. */
    method IsKeyboardVisible(activeElement: Option<Element>) returns (visible: bool)
      ensures visible <==> activeElement.Some? &&
                           (activeElement.value.tagName == TEXTAREA_TAG ||
                            (activeElement.value.tagName == INPUT_TAG && activeElement.value.inputType in keyboardTypes))
    {
      visible := IsVisible(activeElement, keyboardTypes);
    }

    /** Sets the flag and attaches the resize handler once more. */
    method StartListeningService()
      modifies this
      ensures Model() == StartService(old(Model()))
    {
      running := true;
      attachCount := attachCount + 1;
    }

    method AddListener(eventName: string, callback: Option<CallbackId>) returns (r: Result<Handle, Error>)
      requires Valid()
      modifies this
      ensures Valid()
      ensures r == AddOutcome(eventName, callback)
      ensures Model() == AfterAdd(old(Model()), eventName, callback)
    {
      if (eventName != KEYBOARD_DID_SHOW && eventName != KEYBOARD_DID_HIDE) || callback.None? {
        return Err(InvalidArgument(INVALID_EVENT_MESSAGE));
      }
      if eventName == KEYBOARD_DID_SHOW {
        showListeners := showListeners + [callback.value];
      }
      if eventName == KEYBOARD_DID_HIDE {
        hideListeners := hideListeners + [callback.value];
      }
      if !running {
        StartListeningService();
      }
      r := Ok(Handle(if eventName == KEYBOARD_DID_SHOW then DidShow else DidHide, callback.value));
    }

    /** The resize handler, run with the viewport's new height and the element
      that has focus; returns the callbacks it invoked, in order. */
    method HandleViewportResize(newHeight: int, active: Option<Element>) returns (called: seq<CallbackId>)
      requires Valid()
      modifies this
      ensures Valid()
      ensures called == Fired(old(Model()), newHeight, active, keyboardTypes)
      ensures Model() == AfterResize(old(Model()), newHeight, active)
    {
      called := [];
      if newHeight < prevHeight {
        if IsInputKeyboardType(active, keyboardTypes) && !SameNode(active, lastActive) {
          var shown := InvokeAll(showListeners);
          called := called + shown;
        }
      }
      if newHeight > prevHeight {
        if !IsVisible(active, keyboardTypes) {
          var hidden := InvokeAll(hideListeners);
          called := called + hidden;
        }
      }
      prevHeight := newHeight;
      lastActive := active;
    }

    /** A resize event of the viewport: it reaches the handler only while the
      handler is attached. */
    method ViewportResized(newHeight: int, active: Option<Element>) returns (called: seq<CallbackId>)
      requires Valid()
      modifies this
      ensures Valid()
      ensures called == Dispatch(old(Model()), newHeight, active, keyboardTypes)
      ensures Model() == AfterDispatch(old(Model()), newHeight, active)
    {
      called := [];
      if attachCount > 0 {
        called := HandleViewportResize(newHeight, active);
      }
    }

    /** The closure returned by `addListener`, as written: the filtered
      registry is computed and dropped. */
    method Unsubscribe(handle: Handle)
      modifies this
      ensures old(Valid()) ==> Valid()
      ensures Model() == AfterUnsubscribe(old(Model()), handle)
    {
      if handle.kind == DidShow {
        var dropped := Without(showListeners, handle.callback);
      }
      if handle.kind == DidHide {
        var dropped := Without(hideListeners, handle.callback);
      }
      if running && |showListeners| == 0 && |hideListeners| == 0 {
        attachCount := if attachCount > 0 then attachCount - 1 else 0;
        running := false;
      }
    }

    /** The closure as intended: the filtered registry is assigned back. */
    method UnsubscribeFixed(handle: Handle)
      requires Valid()
      modifies this
      ensures Valid()
      ensures Model() == AfterUnsubscribeFixed(old(Model()), handle)
    {
      ghost var before := Model();
      if handle.kind == DidShow {
        showListeners := Without(showListeners, handle.callback);
      }
      if handle.kind == DidHide {
        hideListeners := Without(hideListeners, handle.callback);
      }
      if running && |showListeners| == 0 && |hideListeners| == 0 {
        attachCount := attachCount - 1;
        running := false;
      }
      UnsubscribeFixedKeepsConsistent(before, handle);
    }
  }
  /** What a caller can conclude from the contracts of `Detector` alone: the
      text-area scenario, and a "did show" subscriber that still runs after
      its unsubscribe handle (as written) was called. */
  method TextareaClient(keyboardTypes: set<string>)
  {
    var detector := new Detector(keyboardTypes, 800);
    var showHandle := detector.AddListener(KEYBOARD_DID_SHOW, Some(10));
    var hideHandle := detector.AddListener(KEYBOARD_DID_HIDE, Some(20));
    var textarea := Element(1, TEXTAREA_TAG, "");
    var called := detector.ViewportResized(500, Some(textarea));
    assert called == [10];
    called := detector.ViewportResized(800, None);
    assert called == [20];
    detector.Unsubscribe(showHandle.value);
    called := detector.ViewportResized(500, Some(textarea));
    assert called == [10];
    assert detector.running;
  }

  /** The same subscriptions with the corrected closure: after both handles
      are called the handler is detached and a resize invokes nothing. */
  method CorrectedUnsubscribeClient(keyboardTypes: set<string>)
  {
    var detector := new Detector(keyboardTypes, 800);
    var showHandle := detector.AddListener(KEYBOARD_DID_SHOW, Some(10));
    var hideHandle := detector.AddListener(KEYBOARD_DID_HIDE, Some(20));
    var textarea := Element(1, TEXTAREA_TAG, "");
    detector.UnsubscribeFixed(showHandle.value);
    var called := detector.ViewportResized(500, Some(textarea));
    assert called == [];
    assert detector.running;
    detector.UnsubscribeFixed(hideHandle.value);
    assert !detector.running && detector.attachCount == 0;
    called := detector.ViewportResized(800, None);
    assert called == [];
  }
}
