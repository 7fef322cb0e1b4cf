/** Runs of the keyboard emulator: any sequence of subscriptions, calls of
    unsubscribe handles and viewport resize events, applied from a state in
    order. The lemmas here state what holds along every such run. */
module KeyboardTraces {
  import opened Wrappers
  import opened NativeWebKeyboard

  /** One thing that can happen to the emulator. */
  datatype Op =
    | Subscribe(eventName: string, callback: Option<CallbackId>)
    | CallUnsubscribe(handle: Handle)
    | ViewportResize(newHeight: int, active: Option<Element>)

  /** Whether `op` is an `addListener` call that succeeds. */
  predicate Subscribes(op: Op)
  {
    op.Subscribe? && AddOutcome(op.eventName, op.callback).Ok?
  }

  function Step(s: State, op: Op): State
  {
    match op
    case Subscribe(eventName, callback) => AfterAdd(s, eventName, callback)
    case CallUnsubscribe(handle) => AfterUnsubscribe(s, handle)
    case ViewportResize(newHeight, active) => AfterDispatch(s, newHeight, active)
  }

  /** The callbacks `op` invokes, in order. */
  function StepCalls(s: State, op: Op, keyboardTypes: set<string>): seq<CallbackId>
  {
    match op
    case ViewportResize(newHeight, active) => Dispatch(s, newHeight, active, keyboardTypes)
    case _ => []
  }

  function Run(s: State, ops: seq<Op>): State
    decreases |ops|
  {
    if ops == [] then s else Run(Step(s, ops[0]), ops[1..])
  }

  /** Every callback invocation along the run, in order. */
  function Calls(s: State, ops: seq<Op>, keyboardTypes: set<string>): seq<CallbackId>
    decreases |ops|
  {
    if ops == [] then []
    else StepCalls(s, ops[0], keyboardTypes) + Calls(Step(s, ops[0]), ops[1..], keyboardTypes)
  }

  lemma {:induction false} RunAppend(s: State, first: seq<Op>, rest: seq<Op>)
    ensures Run(s, first + rest) == Run(Run(s, first), rest)
    decreases |first|
  {
    if first != [] {
      assert (first + rest)[0] == first[0];
      assert (first + rest)[1..] == first[1..] + rest;
      RunAppend(Step(s, first[0]), first[1..], rest);
    } else {
      assert first + rest == rest;
    }
  }

  lemma StepKeepsConsistent(s: State, op: Op)
    requires Consistent(s)
    ensures Consistent(Step(s, op))
  {
  }

  /** The invariant (one attachment exactly while running, running exactly
      while someone is subscribed) holds along every run. */
  lemma {:induction false} RunKeepsConsistent(s: State, ops: seq<Op>)
    requires Consistent(s)
    ensures Consistent(Run(s, ops))
    decreases |ops|
  {
    if ops != [] {
      StepKeepsConsistent(s, ops[0]);
      RunKeepsConsistent(Step(s, ops[0]), ops[1..]);
    }
  }

  /** Neither registry ever loses an entry: each only has entries appended,
      because the unsubscribe handle discards its filtered copy. */
  lemma {:induction false} RegistriesOnlyGrow(s: State, ops: seq<Op>)
    ensures s.showListeners <= Run(s, ops).showListeners
    ensures s.hideListeners <= Run(s, ops).hideListeners
    decreases |ops|
  {
    if ops != [] {
      RegistriesOnlyGrow(Step(s, ops[0]), ops[1..]);
    }
  }

  /** Once the service runs it runs for ever: the teardown never fires. */
  lemma RunningPersists(s: State, ops: seq<Op>)
    requires Consistent(s) && s.running
    ensures Run(s, ops).running && Run(s, ops).attachCount == 1
  {
    RegistriesOnlyGrow(s, ops);
    RunKeepsConsistent(s, ops);
  }

  /** After any successful `addListener` of a run, the service runs at the
      end of the run. */
  lemma SubscribedRunsForever(s: State, ops: seq<Op>, i: nat)
    requires Consistent(s)
    requires i < |ops| && Subscribes(ops[i])
    ensures Run(s, ops).running
  {
    assert ops == ops[..i] + [ops[i]] + ops[i + 1..];
    RunAppend(s, ops[..i] + [ops[i]], ops[i + 1..]);
    RunAppend(s, ops[..i], [ops[i]]);
    var before := Run(s, ops[..i]);
    RunKeepsConsistent(s, ops[..i]);
    AddAttachesOnlyOnStart(before, ops[i].eventName, ops[i].callback);
    RunningPersists(Step(before, ops[i]), ops[i + 1..]);
  }

  /** A run without a successful `addListener` from a state with nothing
      subscribed keeps nothing subscribed, never starts the service and
      invokes no callback. */
  lemma {:induction false} NoSubscriptionNoCalls(s: State, ops: seq<Op>, keyboardTypes: set<string>)
    requires Consistent(s) && s.showListeners == [] && s.hideListeners == []
    requires forall i :: 0 <= i < |ops| ==> !Subscribes(ops[i])
    ensures Run(s, ops).showListeners == [] && Run(s, ops).hideListeners == []
    ensures !Run(s, ops).running && Run(s, ops).attachCount == 0
    ensures Calls(s, ops, keyboardTypes) == []
    decreases |ops|
  {
    if ops != [] {
      assert !Subscribes(ops[0]);
      assert forall i :: 0 <= i < |ops[1..]| ==> !Subscribes(ops[1..][i]) by {
        forall i | 0 <= i < |ops[1..]|
          ensures !Subscribes(ops[1..][i])
        {
          assert ops[1..][i] == ops[i + 1];
        }
      }
      NoSubscriptionNoCalls(Step(s, ops[0]), ops[1..], keyboardTypes);
    }
  }

  /** From module load, the service runs at the end of a run exactly when
      some `addListener` of the run succeeded. */
  lemma RunningIffSubscribed(initialHeight: int, ops: seq<Op>, keyboardTypes: set<string>)
    ensures Run(InitialState(initialHeight), ops).running <==>
              exists i :: 0 <= i < |ops| && Subscribes(ops[i])
  {
    if exists i :: 0 <= i < |ops| && Subscribes(ops[i]) {
      var i :| 0 <= i < |ops| && Subscribes(ops[i]);
      SubscribedRunsForever(InitialState(initialHeight), ops, i);
    } else {
      NoSubscriptionNoCalls(InitialState(initialHeight), ops, keyboardTypes);
    }
  }

  /** A run made only of resize events leaves the registries, the service
      flag and the attachment alone, so every qualifying event of the run
      fires the same, complete registry. */
  lemma {:induction false} ResizeOnlyKeepsRegistries(s: State, ops: seq<Op>)
    requires forall i :: 0 <= i < |ops| ==> ops[i].ViewportResize?
    ensures Run(s, ops).showListeners == s.showListeners
    ensures Run(s, ops).hideListeners == s.hideListeners
    ensures Run(s, ops).running == s.running
    ensures Run(s, ops).attachCount == s.attachCount
    decreases |ops|
  {
    if ops != [] {
      assert ops[0].ViewportResize?;
      assert forall i :: 0 <= i < |ops[1..]| ==> ops[1..][i].ViewportResize? by {
        forall i | 0 <= i < |ops[1..]|
          ensures ops[1..][i].ViewportResize?
        {
          assert ops[1..][i] == ops[i + 1];
        }
      }
      ResizeOnlyKeepsRegistries(Step(s, ops[0]), ops[1..]);
    }
  }

  /** Along a run of resize events only, from a consistent detector, every
      event that shrinks the viewport onto a newly focused keyboard element
      invokes the whole "did show" registry in subscription order, and every
      event that grows it while no keyboard element has focus invokes the
      whole "did hide" registry. */
  lemma ResizeOnlyFiresWholeRegistry(s: State, ops: seq<Op>, i: nat, keyboardTypes: set<string>)
    requires Consistent(s)
    requires forall j :: 0 <= j < |ops| ==> ops[j].ViewportResize?
    requires i < |ops|
    ensures var before := Run(s, ops[..i]);
            && (ops[i].newHeight < before.prevHeight && IsInputKeyboardType(ops[i].active, keyboardTypes)
                && !SameNode(ops[i].active, before.lastActive) ==>
                  StepCalls(before, ops[i], keyboardTypes) == s.showListeners)
            && (ops[i].newHeight > before.prevHeight && !IsInputKeyboardType(ops[i].active, keyboardTypes) ==>
                  StepCalls(before, ops[i], keyboardTypes) == s.hideListeners)
  {
    assert forall j :: 0 <= j < |ops[..i]| ==> ops[..i][j].ViewportResize? by {
      forall j | 0 <= j < |ops[..i]|
        ensures ops[..i][j].ViewportResize?
      {
        assert ops[..i][j] == ops[j];
      }
    }
    ResizeOnlyKeepsRegistries(s, ops[..i]);
  }

  /** Focus a text area, shrink the viewport from 800 to 500: the "did show"
      subscriber runs once. Clear the focus and grow it back to 800: the
      "did hide" subscriber runs once. */
  lemma TextareaScenario(keyboardTypes: set<string>)
    ensures var textarea := Element(1, TEXTAREA_TAG, "");
            var ops := [Subscribe(KEYBOARD_DID_SHOW, Some(10)), Subscribe(KEYBOARD_DID_HIDE, Some(20)),
                        ViewportResize(500, Some(textarea)), ViewportResize(800, None)];
            && IsVisible(Some(textarea), keyboardTypes)
            && !IsVisible(None, keyboardTypes)
            && Calls(InitialState(800), ops, keyboardTypes) == [10, 20]
  {
    var textarea := Element(1, TEXTAREA_TAG, "");
    var ops := [Subscribe(KEYBOARD_DID_SHOW, Some(10)), Subscribe(KEYBOARD_DID_HIDE, Some(20)),
                ViewportResize(500, Some(textarea)), ViewportResize(800, None)];
    var s0 := InitialState(800);
    var s1 := Step(s0, ops[0]);
    var s2 := Step(s1, ops[1]);
    var s3 := Step(s2, ops[2]);
    assert s2 == State([10], [20], true, 1, 800, None);
    assert StepCalls(s2, ops[2], keyboardTypes) == [10];
    assert s3 == State([10], [20], true, 1, 500, Some(textarea));
    assert StepCalls(s3, ops[3], keyboardTypes) == [20];
    assert Calls(s3, ops[3..], keyboardTypes) == [20];
    assert Calls(s2, ops[2..], keyboardTypes) == [10, 20];
    assert Calls(s1, ops[1..], keyboardTypes) == [10, 20];
  }
}
