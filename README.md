# usbwatcher — a verified model of the notification listener and dialog

usbwatcher is a small program for an e-book reader. It listens on the local
socket `usbwatcher` for one-shot USB notifications. On `USB-plugged` it shows a
dialog that offers "Usb Mass Storage" and "Charging". On `USB-unplugged` it
hides the dialog. The user's choices hide the dialog again. Some choices also
launch a helper program (`usb-mass-storage`, `usb-usbnet`).

This project models the program's core in Dafny:

- `classifier.dfy`, module `Classifier`: the test `_client_del` applies to a
  finished message. It compares the length with `strlen` of a literal, then runs
  `strncmp` over that many bytes. `StrnEqual` models `strncmp`, including its
  early stop at a NUL byte. `Classify` is proved to be exact byte equality with
  `"USB-plugged"` and `"USB-unplugged"`.
- `assembler.dfy`, module `Assembler`: the per-connection `client_data_t`
  buffer (`ClientBuffer`) and `Assemble`, the message a sequence of received
  chunks makes. The protocol has no framing, so a message ends when the
  connection closes.
- `dispatcher.dfy`, module `Dispatcher`: the specification of the dialog.
  - `Apply` gives the window's visibility after a sequence of
    `ecore_evas_hide`/`ecore_evas_show` calls.
  - `Step` is the transition table for plug and unplug events and for calls
    of the three handlers and of `main_win_close_handler`. For each input it
    gives the visibility, the window calls made and the commands launched.
  - `Session` runs `Step` over a sequence of inputs and collects the window
    calls and the launched commands.
  - `UsbActions` is the two-entry action table built in `main`.
  - `KeyBindings` lists the keys `key_up` handles itself.
- `watcher.dfy`, module `Watcher`: class `UsbWatcher`, holding the program's
  state. Fields:
  - `clients`: the buffer attached to each open connection.
  - `visibility`: whether the global `main_win` is shown.
  - Ghost logs: the chunks each connection received, every hide/show call,
    every `system()` command, and every input the dispatcher handled.

  Each C callback is a method of the class. `Valid()` ties each log to the
  state: buffers are the assembly of the received chunks, `size` is their
  length, the visibility follows the hide/show calls, and the visibility,
  window-call log and command log are `Session` of the input history from
  `Hidden`. `ClientAdd` and `ClientData` keep `Valid()` and state the new
  buffers. The dispatching methods keep `Valid()` and state their effect on
  visibility, window calls and commands through `Step`: `UsbPlugged`,
  `UsbUnplugged`, `LoadMassStorage`, `LoadUsbnet`, `DoNothing`,
  `MainWinClose`, `Call`, `ItemHandler`, `KeyUp` and `ClientDel`. `Hide`,
  `Show`, `Spawn` and `Record` are helpers these methods are built from.

The initial state is `Hidden`: `main` creates the window, but the call that
would show it (line 256) is commented out.

Behaviour of the code that the model keeps:

- The handlers hide the window whatever its state.
- The action table has two entries, "Usb Mass Storage" (mass storage) and
  "Charging" (`do_nothing`). USB networking is reachable only through the
  keys `XF86Search` and `x`.
- `key_up` hard-codes its keys: `Escape`, `XF86Search` and `x`.

## Model

| member | source | states |
|---|---|---|
| `Classifier.StrnEqualIsPrefixEquality` | src/usbwatcher.c:93-95 | if the first string has no NUL in its first n bytes, the strncmp test succeeds exactly when the two n-byte prefixes are equal |
| `Classifier.MatchesIsEquality` | src/usbwatcher.c:93-96 | for a NUL-free literal, "length equals strlen and strncmp over that length is 0" holds exactly when the buffer equals the literal |
| `Classifier.TokensHaveNoNul` | src/usbwatcher.c:41-42 | neither `USB_PLUGGED` nor `USB_UNPLUGGGED` contains a NUL byte, so strlen is their full length |
| `Classifier.Classify` | src/usbwatcher.c:92-96 | a message is Plugged exactly when it equals the 11 bytes "USB-plugged", Unplugged exactly when it equals the 13 bytes "USB-unplugged", and Unrecognized in every other case |
| `Classifier.NearMissesAreUnrecognized` | src/usbwatcher.c:93-96 | the empty message, "USB-plug", "USB-plugged!", a truncated "USB-unplugge" and "USB-unplugged" followed by a NUL all classify as Unrecognized |
| `Assembler.AssembleSnoc` | src/usbwatcher.c:109-111 | receiving one more chunk appends it to the bytes assembled so far, leaving the earlier bytes unchanged |
| `Assembler.AssembleConcat` | src/usbwatcher.c:105-113 | assembling two runs of chunks one after the other yields the concatenation of the two runs' messages |
| `Assembler.SplitWritesAssembleAlike` | src/usbwatcher.c:109-111 | a message sent as two chunks (for example "USB-" then "plugged") assembles the same bytes as the message sent at once |
| `Dispatcher.StepAgreesWithWindow` | src/usbwatcher.c:115-141 | for every input, the visibility the transition table gives is the one its hide/show calls leave the window in |
| `Dispatcher.StepLaunches` | src/usbwatcher.c:126-136 | one step launches "usb-mass-storage" exactly when it is a call of load_massstorage, "usb-usbnet" exactly when it is a call of load_usbnet, and nothing else |
| `Dispatcher.ApplySnoc` | src/usbwatcher.c:115-124 | after any sequence of hide/show calls, the window is Hidden after a hide and Shown after a show, whatever came before |
| `Dispatcher.SessionSnoc` | src/usbwatcher.c:115-141 | one more input moves a session one step of the transition table further and appends that step's window calls and commands to the logs |
| `Dispatcher.LaunchesMatchInvocations` | src/usbwatcher.c:126-136 | over any sequence of inputs, "usb-mass-storage" is launched once per call of load_massstorage and "usb-usbnet" once per call of load_usbnet, and no other command is ever launched |
| `Dispatcher.PlugShows` | src/usbwatcher.c:115-119 | a plug event hides then shows the window, so it ends Shown from either state and is redrawn when already shown; nothing is launched |
| `Dispatcher.HidingInputsAreIdempotent` | src/usbwatcher.c:121-141 | unplug, do_nothing and main_win_close_handler make one hide call, leave the dialog Hidden and launch nothing, and repeating them leaves it so; an unrecognized message makes no window call and launches nothing |
| `Dispatcher.LoadersLaunchOnce` | src/usbwatcher.c:126-136 | load_massstorage and load_usbnet make one hide call and launch their command exactly once |
| `Dispatcher.ItemsOfTheActionTable` | src/usbwatcher.c:215-219 | the table has two entries labelled "Usb Mass Storage" and "Charging"; item 0 hides the dialog and launches "usb-mass-storage", item 1 only hides it |
| `Dispatcher.KeysOfKeyUp` | src/usbwatcher.c:187-194 | Escape is bound to do_nothing, and XF86Search and x are bound to load_usbnet, each in both directions; no key is bound to mass storage |
| `Dispatcher.PlugThenUnplug` | src/usbwatcher.c:93-124 | the messages "USB-plugged" then "USB-unplugged" show the dialog and then hide it, from either state, with the calls hide, show, hide, and launch nothing |
| `Watcher.UsbWatcher.constructor` | src/usbwatcher.c:229-256 | the program starts with no connection, the dialog Hidden and empty logs |
| `Watcher.UsbWatcher.ClientAdd` | src/usbwatcher.c:77-85 | a newly accepted connection gets an empty buffer of size 0; other connections and the dialog are untouched |
| `Watcher.UsbWatcher.ClientData` | src/usbwatcher.c:105-113 | the chunk is appended to this connection's buffer and its size grows by the chunk's length; no other connection changes |
| `Watcher.UsbWatcher.ClientDel` | src/usbwatcher.c:87-103 | the stored buffer is classified, the table's step for that event is taken (for "USB-plugged" hide then show, for an unrecognized message no window call), and the connection's buffer is removed |
| `Watcher.UsbWatcher.UsbPlugged` | src/usbwatcher.c:115-119 | hides then shows the window, so it ends Shown and is redrawn even if already shown; nothing is launched |
| `Watcher.UsbWatcher.UsbUnplugged` | src/usbwatcher.c:121-124 | hides the window; nothing is launched |
| `Watcher.UsbWatcher.LoadMassStorage` | src/usbwatcher.c:126-130 | hides the window and appends "usb-mass-storage" to the command log once |
| `Watcher.UsbWatcher.LoadUsbnet` | src/usbwatcher.c:132-136 | hides the window and appends "usb-usbnet" to the command log once |
| `Watcher.UsbWatcher.DoNothing` | src/usbwatcher.c:138-141 | hides the window; nothing is launched |
| `Watcher.UsbWatcher.MainWinClose` | src/usbwatcher.c:57-60 | main_win_close_handler hides the window it is given; nothing is launched |
| `Watcher.UsbWatcher.Call` | src/usbwatcher.c:168-169 | calling a handler through the action's function pointer takes the table's step for that handler, window calls included |
| `Watcher.UsbWatcher.ItemHandler` | src/usbwatcher.c:163-170 | selecting an item runs its handler when the handler is not null, and makes no window call and changes nothing when it is null |
| `Watcher.UsbWatcher.KeyUp` | src/usbwatcher.c:182-197 | a bound key runs its handler; any other key makes no window call and leaves the dialog, the command log and the history unchanged |
| `Watcher.PlugThenUnplugSession` | src/usbwatcher.c:77-124 | a client that sends "USB-" and "plugged" in two writes shows the dialog, and a second client that sends "USB-unplugged" hides it |

## Left out

- Creating the local server and registering the callbacks (lines 223-227) are socket plumbing. Connections are identified by a number standing for the `Ecore_Con_Client` handle, and the callbacks are methods called in event order.
- `main_win_close_handler` is defined but never registered: `main` sets only the resize callback (line 255). `CloseWindow` and `MainWinClose` model its body in case it is called.
- `system()` is a foreign call. Only the command name is recorded, in a ghost log. The child process and its exit status, which the source ignores, are not modelled.
- Window work in the toolkit is not modelled: `draw_handler`, `page_handler`, `main_win_resize_handler`, and creating and theming the Edje/Evas objects. `ecore_evas_hide` and `ecore_evas_show` are modelled only by their effect on visibility and by a ghost log of the calls.
- `choicebox_aux_key_down_handler` belongs to a foreign library. Keys other than Escape, XF86Search and x reach it; the model treats it as having no effect on this state.
- The rest of `main` and the environment handling are not modelled: `die`, `x_shutdown`, the X I/O error handler, `setlocale` and `gettext`. Action labels are the untranslated message ids.
- Memory management is not modelled: unchecked `malloc`/`realloc`/`strdup` failures and the `free` calls. Buffers are Dafny sequences. The one-byte `strdup("")` of a fresh buffer is the empty sequence, since only `size` bytes are ever read.
- `ClientData`: the `int size` field would overflow past 2^31 - 1 bytes on one connection. The model's size is unbounded.
- `ClientDel` classifies `msg` through the class invariant `size == |msg|`. The source's `msg->size` is the buffer's `size` field, and the invariant makes the two the same.
