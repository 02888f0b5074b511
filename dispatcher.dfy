/**
 * Action dispatcher: the two-state dialog of src/usbwatcher.c (lines 115-141),
 * the two-entry action table built in `main` (lines 215-219) and the keys
 * `key_up` handles itself (lines 187-194).
 *
 * This module holds the specification: what the window shows after a
 * sequence of `ecore_evas_hide`/`ecore_evas_show` calls, and the transition
 * table that says, for each input, the resulting visibility, the calls made
 * on the window and the external commands launched. The class in module Watcher implements it.
 */
module Dispatcher {
  import opened Classifier

  datatype Option<T> = None | Some(value: T)

  /** Whether `main_win` is on screen. */
  datatype Visibility = Hidden | Shown

  /** A call into the window toolkit: `ecore_evas_hide` or `ecore_evas_show`. */
  datatype WindowCall = HideWindow | ShowWindow

  /** The visibility after the window receives `calls` in order, starting from `v`. */
  function Apply(v: Visibility, calls: seq<WindowCall>): Visibility
    decreases |calls|
  {
    if calls == [] then v
    else Apply(if calls[0] == HideWindow then Hidden else Shown, calls[1..])
  }

  /** One more call is applied to the visibility the earlier calls left. */
  lemma {:induction false} ApplySnoc(v: Visibility, calls: seq<WindowCall>, call: WindowCall)
    ensures Apply(v, calls + [call]) == (if call == HideWindow then Hidden else Shown)
    decreases |calls|
  {
    if calls == [] {
      assert [] + [call] == [call];
      assert [call][1..] == [];
    } else {
      assert (calls + [call])[1..] == calls[1..] + [call];
      ApplySnoc(if calls[0] == HideWindow then Hidden else Shown, calls[1..], call);
    }
  }

  /** The external programs started with system(). */
  const MassStorageCommand := "usb-mass-storage"
  const UsbnetCommand := "usb-usbnet"

  /** The handler functions an action can point to: load_massstorage, load_usbnet, do_nothing. */
  datatype Handler = MountMassStorage | StartUsbnet | Dismiss

  /** `usb_action_t`: a label and a handler that may be null. */
  datatype UsbAction = UsbAction(name: string, handler: Option<Handler>)

  /** The table `main` builds: "Usb Mass Storage" and "Charging" (labels before translation). */
  const UsbActions: seq<UsbAction> := [
    UsbAction("Usb Mass Storage", Some(MountMassStorage)),
    UsbAction("Charging", Some(Dismiss))
  ]

  /** The keys `key_up` acts on itself; every other key goes to the choicebox. */
  const KeyBindings: map<string, Handler> := map[
    "Escape" := Dismiss,
    "XF86Search" := StartUsbnet,
    "x" := StartUsbnet
  ]

  /**
   * What can drive the dialog: a classified socket event, a call of one of
   * the three handlers, or a call of main_win_close_handler.
   */
  datatype Input = Event(kind: EventKind) | Invoke(handler: Handler) | CloseWindow

  /**
   * The visibility after an input, the calls it made on the window and the
   * commands it launched, both in order.
   */
  datatype Outcome = Outcome(visibility: Visibility, calls: seq<WindowCall>, spawned: seq<string>)

  /** The transition table of the dialog. */
  function Step(v: Visibility, input: Input): Outcome {
    match input
    case Event(Plugged) => Outcome(Shown, [HideWindow, ShowWindow], [])
    case Event(Unplugged) => Outcome(Hidden, [HideWindow], [])
    case Event(Unrecognized) => Outcome(v, [], [])
    case Invoke(MountMassStorage) => Outcome(Hidden, [HideWindow], [MassStorageCommand])
    case Invoke(StartUsbnet) => Outcome(Hidden, [HideWindow], [UsbnetCommand])
    case Invoke(Dismiss) => Outcome(Hidden, [HideWindow], [])
    case CloseWindow => Outcome(Hidden, [HideWindow], [])
  }

  /** The visibility each step of the table gives is what its window calls leave. */
  lemma StepAgreesWithWindow(v: Visibility, input: Input)
    ensures Step(v, input).visibility == Apply(v, Step(v, input).calls)
  {
  }

  /**
   * The visibility after `inputs` in order from `v`, every window call they
   * made and every command they launched.
   */
  function Session(v: Visibility, inputs: seq<Input>): Outcome
    decreases |inputs|
  {
    if inputs == [] then Outcome(v, [], [])
    else
      var first := Step(v, inputs[0]);
      var rest := Session(first.visibility, inputs[1..]);
      Outcome(rest.visibility, first.calls + rest.calls, first.spawned + rest.spawned)
  }

  /** One more input takes a session one step of the table further. */
  lemma {:induction false} SessionSnoc(v: Visibility, inputs: seq<Input>, input: Input)
    ensures Session(v, inputs + [input]) ==
      Outcome(Step(Session(v, inputs).visibility, input).visibility,
              Session(v, inputs).calls + Step(Session(v, inputs).visibility, input).calls,
              Session(v, inputs).spawned + Step(Session(v, inputs).visibility, input).spawned)
    decreases |inputs|
  {
    if inputs == [] {
      assert [] + [input] == [input];
      assert [input][1..] == [];
    } else {
      assert (inputs + [input])[1..] == inputs[1..] + [input];
      SessionSnoc(Step(v, inputs[0]).visibility, inputs[1..], input);
    }
  }

  /** The number of times `inputs` calls handler `h`. */
  function Invocations(inputs: seq<Input>, h: Handler): nat
    decreases |inputs|
  {
    if inputs == [] then 0
    else (if inputs[0] == Invoke(h) then 1 else 0) + Invocations(inputs[1..], h)
  }

  /**
   * Only the two loading handlers launch anything: each launch of
   * usb-mass-storage (usb-usbnet) is one call of its handler, and no other
   * command is ever launched.
   */
  lemma {:induction false} LaunchesMatchInvocations(v: Visibility, inputs: seq<Input>)
    ensures multiset(Session(v, inputs).spawned)[MassStorageCommand] == Invocations(inputs, MountMassStorage)
    ensures multiset(Session(v, inputs).spawned)[UsbnetCommand] == Invocations(inputs, StartUsbnet)
    ensures forall cmd :: cmd in Session(v, inputs).spawned ==> cmd == MassStorageCommand || cmd == UsbnetCommand
    decreases |inputs|
  {
    if inputs != [] {
      var first := Step(v, inputs[0]);
      var rest := Session(first.visibility, inputs[1..]);
      LaunchesMatchInvocations(first.visibility, inputs[1..]);
      StepLaunches(v, inputs[0]);
      assert Session(v, inputs).spawned == first.spawned + rest.spawned;
      assert multiset(Session(v, inputs).spawned) == multiset(first.spawned) + multiset(rest.spawned);
    }
  }

  /** One step launches a command exactly when it calls that command's handler. */
  lemma StepLaunches(v: Visibility, input: Input)
    ensures multiset(Step(v, input).spawned)[MassStorageCommand] == if input == Invoke(MountMassStorage) then 1 else 0
    ensures multiset(Step(v, input).spawned)[UsbnetCommand] == if input == Invoke(StartUsbnet) then 1 else 0
    ensures forall cmd :: cmd in Step(v, input).spawned ==> cmd == MassStorageCommand || cmd == UsbnetCommand
  {
  }

  /**
   * A plug event shows the dialog from either state, hiding it first so that
   * it is redrawn even when already shown; nothing is launched.
   */
  lemma PlugShows(v: Visibility)
    ensures Step(v, Event(Plugged)) == Outcome(Shown, [HideWindow, ShowWindow], [])
  {
  }

  /**
   * Unplugging, dismissing and main_win_close_handler hide the dialog and launch
   * nothing, so repeating them while hidden leaves the dialog as it is; an
   * unrecognized message neither calls the window nor launches anything.
   */
  lemma HidingInputsAreIdempotent(v: Visibility, input: Input)
    requires input in {Event(Unplugged), Invoke(Dismiss), CloseWindow}
    ensures Step(v, input) == Outcome(Hidden, [HideWindow], [])
    ensures Step(Step(v, input).visibility, input) == Step(v, input)
    ensures Step(v, Event(Unrecognized)) == Outcome(v, [], [])
  {
  }

  /** Each loading handler hides the dialog and launches its command exactly once. */
  lemma LoadersLaunchOnce(v: Visibility)
    ensures Step(v, Invoke(MountMassStorage)) == Outcome(Hidden, [HideWindow], [MassStorageCommand])
    ensures Step(v, Invoke(StartUsbnet)) == Outcome(Hidden, [HideWindow], [UsbnetCommand])
  {
  }

  /** Item 0 mounts mass storage, item 1 ("Charging") only hides the dialog. */
  lemma ItemsOfTheActionTable(v: Visibility)
    ensures |UsbActions| == 2
    ensures UsbActions[0].name == "Usb Mass Storage" && UsbActions[1].name == "Charging"
    ensures UsbActions[0].handler.Some? &&
      Step(v, Invoke(UsbActions[0].handler.value)) == Outcome(Hidden, [HideWindow], [MassStorageCommand])
    ensures UsbActions[1].handler.Some? &&
      Step(v, Invoke(UsbActions[1].handler.value)) == Outcome(Hidden, [HideWindow], [])
  {
  }

  /** Escape dismisses, XF86Search and x start USB networking, no other key is bound. */
  lemma KeysOfKeyUp(key: string)
    ensures key in KeyBindings && KeyBindings[key] == Dismiss <==> key == "Escape"
    ensures key in KeyBindings && KeyBindings[key] == StartUsbnet <==> key == "XF86Search" || key == "x"
    ensures key in KeyBindings ==> KeyBindings[key] != MountMassStorage
  {
  }

  /**
   * Two clients in turn send "USB-plugged" and "USB-unplugged": the dialog
   * is shown after the first and hidden after the second, and nothing runs.
   */
  lemma PlugThenUnplug(v: Visibility)
    ensures Session(v, [Event(Classify(UsbPlugged))]).visibility == Shown
    ensures Session(v, [Event(Classify(UsbPlugged)), Event(Classify(UsbUnplugged))]) ==
      Outcome(Hidden, [HideWindow, ShowWindow, HideWindow], [])
  {
    var inputs := [Event(Plugged), Event(Unplugged)];
    assert inputs[1..] == [Event(Unplugged)];
    assert inputs[1..][1..] == [];
  }
}
