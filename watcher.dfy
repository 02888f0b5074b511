/**
 * The program's state and callbacks (src/usbwatcher.c): the connection
 * buffers kept through `ecore_con_client_data_set`, the visibility of the
 * global `main_win`, and the functions that change them. Calls into the
 * window toolkit and into system() are recorded in ghost logs; Valid() ties
 * the logs to the state and to the specifications of modules Assembler and
 * Dispatcher.
 */
module Watcher {
  import opened Classifier
  import opened Assembler
  import opened Dispatcher

  /** Stands for the `Ecore_Con_Client *` handle of one connection. */
  type ClientId = nat

  class UsbWatcher {
    /** The `client_data_t` attached to each open connection. */
    var clients: map<ClientId, ClientBuffer>
    /** Whether `main_win` is shown. */
    var visibility: Visibility

    /** The chunks each open connection has delivered, in order. */
    ghost var received: map<ClientId, seq<seq<bv8>>>
    /** Every ecore_evas_hide / ecore_evas_show call on `main_win`. */
    ghost var windowCalls: seq<WindowCall>
    /** Every command passed to system(). */
    ghost var commands: seq<string>
    /** Every input the dispatcher has handled. */
    ghost var history: seq<Input>

    ghost predicate Valid()
      reads this
    {
      received.Keys == clients.Keys &&
      (forall c :: c in clients ==>
         c in received && clients[c].msg == Assemble(received[c]) && clients[c].size == |clients[c].msg|) &&
      visibility == Apply(Hidden, windowCalls) &&
      Session(Hidden, history) == Outcome(visibility, windowCalls, commands)
    }

    /** The state `main` enters the event loop with: no client, window created but not shown. */
    constructor ()
      ensures Valid()
      ensures clients == map[] && visibility == Hidden
      ensures windowCalls == [] && commands == [] && history == []
    {
      clients := map[];
      visibility := Hidden;
      received := map[];
      windowCalls := [];
      commands := [];
      history := [];
    }

    /** ecore_evas_hide(main_win). */
    method Hide()
      requires visibility == Apply(Hidden, windowCalls)
      modifies this`visibility, this`windowCalls
      ensures visibility == Hidden && windowCalls == old(windowCalls) + [HideWindow]
      ensures visibility == Apply(Hidden, windowCalls)
    {
      ApplySnoc(Hidden, windowCalls, HideWindow);
      visibility := Hidden;
      windowCalls := windowCalls + [HideWindow];
    }

    /** ecore_evas_show(main_win). */
    method Show()
      requires visibility == Apply(Hidden, windowCalls)
      modifies this`visibility, this`windowCalls
      ensures visibility == Shown && windowCalls == old(windowCalls) + [ShowWindow]
      ensures visibility == Apply(Hidden, windowCalls)
    {
      ApplySnoc(Hidden, windowCalls, ShowWindow);
      visibility := Shown;
      windowCalls := windowCalls + [ShowWindow];
    }

    /** system(cmd): the command is launched and its exit status ignored. */
    method Spawn(cmd: string)
      modifies this`commands
      ensures commands == old(commands) + [cmd]
    {
      commands := commands + [cmd];
    }

    /** Records that the effects of `input` (per the table Step) have just been performed. */
    ghost method Record(input: Input)
      requires visibility == Step(Session(Hidden, history).visibility, input).visibility
      requires windowCalls == Session(Hidden, history).calls + Step(Session(Hidden, history).visibility, input).calls
      requires commands == Session(Hidden, history).spawned + Step(Session(Hidden, history).visibility, input).spawned
      modifies this`history
      ensures history == old(history) + [input]
      ensures Session(Hidden, history) == Outcome(visibility, windowCalls, commands)
    {
      SessionSnoc(Hidden, history, input);
      history := history + [input];
    }

    /** usb_pluggged: hide then show, so the dialog is redrawn even when already shown. */
    method UsbPlugged()
      requires Valid()
      modifies this`visibility, this`windowCalls, this`history
      ensures Valid()
      ensures windowCalls == old(windowCalls) + [HideWindow, ShowWindow]
      ensures visibility == Step(old(visibility), Event(Plugged)).visibility
      ensures windowCalls == old(windowCalls) + Step(old(visibility), Event(Plugged)).calls
      ensures commands == old(commands) + Step(old(visibility), Event(Plugged)).spawned
      ensures history == old(history) + [Event(Plugged)]
    {
      Hide();
      Show();
      Record(Event(Plugged));
    }

    /** usb_unplugged. */
    method UsbUnplugged()
      requires Valid()
      modifies this`visibility, this`windowCalls, this`history
      ensures Valid()
      ensures visibility == Step(old(visibility), Event(Unplugged)).visibility
      ensures windowCalls == old(windowCalls) + Step(old(visibility), Event(Unplugged)).calls
      ensures commands == old(commands) + Step(old(visibility), Event(Unplugged)).spawned
      ensures history == old(history) + [Event(Unplugged)]
    {
      Hide();
      Record(Event(Unplugged));
    }

    /** load_massstorage. */
    method LoadMassStorage()
      requires Valid()
      modifies this`visibility, this`windowCalls, this`commands, this`history
      ensures Valid()
      ensures visibility == Step(old(visibility), Invoke(MountMassStorage)).visibility
      ensures windowCalls == old(windowCalls) + Step(old(visibility), Invoke(MountMassStorage)).calls
      ensures commands == old(commands) + Step(old(visibility), Invoke(MountMassStorage)).spawned
      ensures history == old(history) + [Invoke(MountMassStorage)]
    {
      Hide();
      Spawn(MassStorageCommand);
      Record(Invoke(MountMassStorage));
    }

    /** load_usbnet. */
    method LoadUsbnet()
      requires Valid()
      modifies this`visibility, this`windowCalls, this`commands, this`history
      ensures Valid()
      ensures visibility == Step(old(visibility), Invoke(StartUsbnet)).visibility
      ensures windowCalls == old(windowCalls) + Step(old(visibility), Invoke(StartUsbnet)).calls
      ensures commands == old(commands) + Step(old(visibility), Invoke(StartUsbnet)).spawned
      ensures history == old(history) + [Invoke(StartUsbnet)]
    {
      Hide();
      Spawn(UsbnetCommand);
      Record(Invoke(StartUsbnet));
    }

    /** do_nothing: only hides the dialog. */
    method DoNothing()
      requires Valid()
      modifies this`visibility, this`windowCalls, this`history
      ensures Valid()
      ensures visibility == Step(old(visibility), Invoke(Dismiss)).visibility
      ensures windowCalls == old(windowCalls) + Step(old(visibility), Invoke(Dismiss)).calls
      ensures commands == old(commands) + Step(old(visibility), Invoke(Dismiss)).spawned
      ensures history == old(history) + [Invoke(Dismiss)]
    {
      Hide();
      Record(Invoke(Dismiss));
    }

    /** main_win_close_handler: hides the window it is given (here always `main_win`). */
    method MainWinClose()
      requires Valid()
      modifies this`visibility, this`windowCalls, this`history
      ensures Valid()
      ensures visibility == Step(old(visibility), CloseWindow).visibility
      ensures windowCalls == old(windowCalls) + Step(old(visibility), CloseWindow).calls
      ensures commands == old(commands) + Step(old(visibility), CloseWindow).spawned
      ensures history == old(history) + [CloseWindow]
    {
      Hide();
      Record(CloseWindow);
    }

    /** A call through a `usb_action_t.handler` function pointer. */
    method Call(h: Handler)
      requires Valid()
      modifies this`visibility, this`windowCalls, this`commands, this`history
      ensures Valid()
      ensures visibility == Step(old(visibility), Invoke(h)).visibility
      ensures windowCalls == old(windowCalls) + Step(old(visibility), Invoke(h)).calls
      ensures commands == old(commands) + Step(old(visibility), Invoke(h)).spawned
      ensures history == old(history) + [Invoke(h)]
    {
      match h
      case MountMassStorage => LoadMassStorage();
      case StartUsbnet => LoadUsbnet();
      case Dismiss => DoNothing();
    }

    /**
     * item_handler: the choicebox reports item `itemNum` of the table passed
     * as its parameter; the handler runs only when it is not null.
     */
    method ItemHandler(actions: seq<UsbAction>, itemNum: nat)
      requires Valid()
      requires itemNum < |actions|
      modifies this`visibility, this`windowCalls, this`commands, this`history
      ensures Valid()
      ensures actions[itemNum].handler.None? ==>
        visibility == old(visibility) && windowCalls == old(windowCalls) &&
        commands == old(commands) && history == old(history)
      ensures actions[itemNum].handler.Some? ==>
        var input := Invoke(actions[itemNum].handler.value);
        visibility == Step(old(visibility), input).visibility &&
        windowCalls == old(windowCalls) + Step(old(visibility), input).calls &&
        commands == old(commands) + Step(old(visibility), input).spawned &&
        history == old(history) + [input]
    {
      if actions[itemNum].handler.Some? {
        Call(actions[itemNum].handler.value);
      }
    }

    /**
     * key_up: Escape dismisses, XF86Search or x start USB networking; any
     * other key goes to the choicebox's own key handler, which does not
     * change this state.
     */
    method KeyUp(key: string)
      requires Valid()
      modifies this`visibility, this`windowCalls, this`commands, this`history
      ensures Valid()
      ensures key !in KeyBindings ==>
        visibility == old(visibility) && windowCalls == old(windowCalls) &&
        commands == old(commands) && history == old(history)
      ensures key in KeyBindings ==>
        var input := Invoke(KeyBindings[key]);
        visibility == Step(old(visibility), input).visibility &&
        windowCalls == old(windowCalls) + Step(old(visibility), input).calls &&
        commands == old(commands) + Step(old(visibility), input).spawned &&
        history == old(history) + [input]
    {
      if key == "Escape" {
        DoNothing();
        return;
      }
      if key == "XF86Search" || key == "x" {
        LoadUsbnet();
        return;
      }
    }

    /** _client_add: a new connection gets an empty buffer of size 0. */
    method ClientAdd(c: ClientId)
      requires Valid()
      modifies this`clients, this`received
      ensures Valid()
      ensures clients == old(clients)[c := EmptyBuffer]
      ensures received == old(received)[c := []]
    {
      clients := clients[c := EmptyBuffer];
      received := received[c := []];
    }

    /**
     * _client_data: the chunk is appended to this connection's buffer and
     * its size grows by the chunk's length; no other connection changes.
     */
    method ClientData(c: ClientId, chunk: seq<bv8>)
      requires Valid()
      requires c in clients
      modifies this`clients, this`received
      ensures Valid()
      ensures c in clients && c in received
      ensures clients[c].msg == old(clients[c].msg) + chunk
      ensures clients[c].size == old(clients[c].size) + |chunk|
      ensures received[c] == old(received[c]) + [chunk]
      ensures clients.Keys == old(clients.Keys)
      ensures forall d :: d in clients && d != c ==> clients[d] == old(clients[d])
    {
      var buffer := clients[c];
      AssembleSnoc(received[c], chunk);
      clients := clients[c := ClientBuffer(buffer.msg + chunk, buffer.size + |chunk|)];
      received := received[c := received[c] + [chunk]];
    }

    /**
     * _client_del: the assembled message is classified, the matching
     * handler runs, and the connection's buffer is released.
     */
    method ClientDel(c: ClientId)
      requires Valid()
      requires c in clients
      modifies this
      ensures Valid()
      ensures clients == old(clients) - {c}
      ensures received == old(received) - {c}
      ensures var input := Event(Classify(old(clients[c].msg)));
        visibility == Step(old(visibility), input).visibility &&
        windowCalls == old(windowCalls) + Step(old(visibility), input).calls &&
        commands == old(commands) + Step(old(visibility), input).spawned &&
        history == old(history) + [input]
    {
      var kind := Classify(clients[c].msg);
      if kind == Plugged {
        UsbPlugged();
      } else if kind == Unplugged {
        UsbUnplugged();
      } else {
        Record(Event(Unrecognized));
      }
      clients := clients - {c};
      received := received - {c};
    }
  }

  /**
   * Two clients in turn, as the event loop delivers their callbacks: the
   * first sends "USB-" and "plugged" in two writes, the second
   * "USB-unplugged" in one. The dialog is shown after the first disconnect
   * and hidden after the second, and no command is launched.
   */
  method PlugThenUnplugSession() returns (afterPlug: Visibility, afterUnplug: Visibility)
    ensures afterPlug == Shown && afterUnplug == Hidden
  {
    var w := new UsbWatcher();
    w.ClientAdd(1);
    w.ClientData(1, UsbPlugged[..4]);
    w.ClientData(1, UsbPlugged[4..]);
    assert [] + UsbPlugged[..4] + UsbPlugged[4..] == UsbPlugged;
    w.ClientDel(1);
    afterPlug := w.visibility;
    w.ClientAdd(2);
    w.ClientData(2, UsbUnplugged);
    assert [] + UsbUnplugged == UsbUnplugged;
    w.ClientDel(2);
    afterUnplug := w.visibility;
    assert w.commands == [];
  }
}
