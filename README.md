# Patrol session coordinator

This project models the live-shift core of a security-patrol console written in Python with Flask, Flask-MQTT and Flask-SocketIO. Sentries carry RFID cards past checkpoints A–D. The checkpoints and a circuit-handler process publish connectivity, overdue, scan and completion events on an MQTT broker. The console keeps one active session in module-level globals:

- `SHIFT_STATUS`, `CURRENT_CIRCUIT`, `SENTRY_CIRCUIT`, `PATHS`, `START`, `END`, `CIRCUIT_COMPLETED`, `ALARMS` and `ALARM_TRIGGERED`;
- the broker connection flags of the application and of the five devices.

Operator actions and broker callbacks rewrite these globals.

The model has three layers.

- `Patrol` holds the session as a value (`Session`). It has one step function per operation, and each step's contract states the rule the code follows.
  - The operator actions are `select_circuit`, `save_current_circuit`, `deselect_circuit`, silencing the alarm and `create_route`.
  - The broker callbacks are `on_mqtt_connect` and the four handlers of `on_mqtt_message`.
- `Routes.Coordinator` is a class whose fields are the globals, the Shift table of the record store and a log of outbound effects. Its methods rewrite the fields in the code's own order. Each method is proved to leave exactly the state, and return exactly the outcome, of the matching step function.
- `Bus` holds the pure parts of message handling: topic dispatch (on the last `/`-segment, then exact equality with ALERTS and DONE), positional decoding of payloads and the tag of an invalid scan. `Text` and `Devices` provide `split("/")[-1]`, `str.upper()` and the device identifiers.

The `Trace` module applies sequences of inputs. Its lemmas prove what holds over any such sequence:

- only an explicit silence clears the alarm;
- without a new selection, alarm times are only ever appended, and a completed circuit stays completed;
- `APP_CONNECTED` is never cleared, and only a broker connect changes it;
- only bus messages change a device flag;
- the outbound log only grows.

An input is an operator action (select, save, deselect, silence, `create_route`), a broker connect or a bus message. In a trace, a new Shift row goes under a key above every stored key (`Trace.KeyAbove`), which is one of the fresh keys `CreateStep` accepts.

`Laws` proves properties that relate two or more operations, such as idempotence, the save target surviving completion, and the partial failure of an alarm raised before any selection.

Where the code departs from what the coordinator is documented to do, the model follows the code:

- Selecting a circuit does not reset `ALARM_TRIGGERED`.
- Deselecting keeps `PATHS`, `CIRCUIT_COMPLETED`, `ALARMS` and `ALARM_TRIGGERED`. So the alarm can stay on while no shift runs, and DONE leaves it on too.
- The overdue handler never marks a circuit entry; it only raises the alarm.
- A save writes only the circuit. The alarm times and the completion flag are never persisted.
- `ALARMS` is `None` until a circuit is selected. An alarm before that sets `ALARM_TRIGGERED` and then fails at the append, so nothing is published.
- The card id of a scan alert is upper-cased only after the state has changed. A non-string id therefore fails after the update or the alarm has taken effect.
- The tags are upper-case: `STOLEN CARD` and `UNKNOWN CARD`.
- In `on_mqtt_message`, `global ALARM_TRIGGERED` (line 636) and `global ALARMS` (line 638) are declared again after the same function has already assigned `ALARM_TRIGGERED` (line 590) and used `ALARMS` (line 592). From Python 3.6 on this is a compile-time `SyntaxError` ("name is assigned to before global declaration"), and the `match` at line 548 needs Python 3.10. As written, app/routes.py therefore cannot be imported. The model gives each statement its evident meaning: both handlers read and write the module globals.

## Model

| member | source | states |
|---|---|---|
| `Text.LastSegment` | app/routes.py:535 | the result is the suffix after the last `/` (the whole topic when it has none): it contains no `/`, and when shorter than the topic it is preceded by `/` |
| `Text.LastSegmentAfterSlash` | app/routes.py:534-535 | for any prefix and a `/`-free word `w`, the last segment of `prefix/w` is `w` |
| `Text.LastSegmentOfPlain` | app/routes.py:535 | a topic with no `/` is its own last segment |
| `Text.Upper` | app/routes.py:633 | upper-casing keeps the length and maps each character by its ASCII upper case |
| `Text.UpperIsUpperCase` | app/routes.py:633 | an upper-cased string has no lower-case letter, upper-casing is idempotent, and it fixes strings without lower-case letters |
| `Devices.Name` | app/routes.py:549-561 | the circuit handler reports `circuit-handler`, and checkpoint A, B, C or D reports `checkpoint-` followed by that letter |
| `Devices.Parse` | app/routes.py:548-563 | a recognised client id names exactly the device with that id; any other id names no device |
| `Devices.ParseName` | app/routes.py:548-563 | parsing a device's own id gives back that device |
| `Devices.AllDownIsComplete` | app/routes.py:52-60 | every device has a flag, and every flag starts disconnected |
| `Bus.Dispatch` | app/routes.py:532-647 | a topic reaches the connectivity handler iff its last segment is `connected`, the overdue handler iff it is `overdue-scan`, the alerts handler iff neither and it equals ALERTS, the done handler iff none of those and it equals DONE |
| `Bus.SuffixTopicsDispatch` | app/routes.py:534-565 | every topic ending in `/connected` or `/overdue-scan` reaches that handler, whatever ALERTS and DONE are |
| `Payload.Truthy` | app/routes.py:563 | Python's `bool()`: false exactly on None, False, 0, the empty string, the empty list and the empty dict (also used for `if valid:` at line 611) |
| `Payload.Values` | app/routes.py:546 | `list(d.values())`: one value per item, in insertion order (also at lines 581 and 609) |
| `Bus.Epoch` | app/routes.py:583 | `datetime.fromtimestamp` accepts exactly an int, which it takes as is, or a bool, which is an int (False is 0 and True is 1); the result is non-zero exactly when the value is truthy; anything else is NotANumber |
| `Bus.WellFormed` | app/routes.py:546-609 | the payloads a handler unpacks without raising: none for a topic without a handler; any payload for DONE; a dict for the other handlers, and for an overdue report also a string card id and an int or bool time. A later failure, such as a scan reason that is not a string, belongs to the step |
| `Bus.Unpack` | app/routes.py:546 | unpacking succeeds iff the payload is a dict with exactly the expected number of values; otherwise it errs with the value count or with not-a-dict |
| `Bus.Decode` | app/routes.py:536-614 | decoding succeeds iff the payload is well formed for its handler (2, 4 or 5 values; an overdue report needs a numeric time and a string card id); the event's fields are the values by position; a scan's info is the items after the first two; DONE never reads its payload; the error is NotAnObject for a non-dict, WrongValueCount for a wrong number of values, and for an overdue report NotANumber for a bad time, then NotAString for a non-string card id |
| `Bus.DecodeDevicePayloads` | app/routes.py:538-609 | decoding the payloads the devices publish gives back the encoded connectivity, overdue and scan events |
| `Bus.Tag` | app/routes.py:628-633 | reason "card not on duty" gives STOLEN CARD for a registered card and UNKNOWN CARD otherwise; any other string reason gives its upper case; a non-string reason fails |
| `Bus.TagProperties` | app/routes.py:628-633 | every tag is upper-case; for an off-duty card the tag is STOLEN CARD exactly when the card is registered |
| `Patrol.Initial` | app/routes.py:23-60 | at start-up no shift is on, every value global is None or 0, every flag is false and every device is disconnected |
| `Patrol.SelectStep` | app/routes.py:276-298 | for a stored id: the shift is on, and CURRENT_CIRCUIT, SENTRY_CIRCUIT, PATHS, START, END, CIRCUIT_COMPLETED and ALARMS are all taken from the stored row; shift ON is published; ALARM_TRIGGERED, the flags and the store are untouched; an unknown id is NotFound and changes nothing |
| `Patrol.SaveStep` | app/routes.py:317-319 | succeeds iff CURRENT_CIRCUIT is a stored key; then only that row's circuit becomes SENTRY_CIRCUIT and every other row and global is unchanged; otherwise NotFound with no change |
| `Patrol.DeselectStep` | app/routes.py:331-343 | shift off, CURRENT_CIRCUIT and SENTRY_CIRCUIT None, START and END 0, shift OFF published, nothing else changed |
| `Patrol.SilenceStep` | app/routes.py:669-673 | ALARM_TRIGGERED false, ALARMS unchanged, alarm OFF published at QoS 2, nothing else changed |
| `Patrol.Subscriptions` | app/routes.py:522-523 | one QoS 2 subscription per inbound topic, in order |
| `Patrol.ConnectStep` | app/routes.py:517-523 | APP_CONNECTED becomes true exactly when rc is 0, and the four inbound topics are then subscribed; any other rc changes nothing |
| `Patrol.ConnectivityStep` | app/routes.py:546-563 | a recognised client id sets exactly that device's flag to `bool(connected)`; any other id leaves every flag unchanged; nothing else changes |
| `Patrol.RaiseAlarm` | app/routes.py:588-595 | ALARM_TRIGGERED is set; when ALARMS is a list, exactly one time is appended and alarm ON is published at QoS 2; otherwise the append fails and nothing else changes |
| `Patrol.OverdueStep` | app/routes.py:581-598 | every overdue report sets ALARM_TRIGGERED; when ALARMS is a list, one time is appended, alarm ON is published and a danger alert follows; otherwise the append fails after the flag is set, and nothing is published or pushed; SENTRY_CIRCUIT and every other global keep their values |
| `Patrol.ScanStep` | app/routes.py:609-645 | a valid scan applies update_circuit to SENTRY_CIRCUIT and pushes a success alert, leaving the alarm state alone; an invalid scan with a string reason raises the alarm with the derived tag; a non-string reason changes nothing; a non-string card id fails after the state change |
| `Patrol.DoneStep` | app/routes.py:647-658 | CIRCUIT_COMPLETED true, shift off, shift OFF published, completion pushed; CURRENT_CIRCUIT, SENTRY_CIRCUIT and all else kept |
| `Patrol.EventStep` | app/routes.py:535-658 | overdue reports and invalid scans with a string reason set ALARM_TRIGGERED; when ALARMS is a list they append exactly one alarm time and publish alarm ON, and otherwise they fail with NotAList after setting the flag; all other events (valid scans, invalid scans whose reason is not a string, connectivity and DONE) never touch ALARM_TRIGGERED or ALARMS; connectivity and DONE always end Ok; no event changes APP_CONNECTED or the store or clears completion |
| `Patrol.MessageStep` | app/routes.py:527-658 | a topic of no handler is ignored, a malformed payload changes nothing, a well-formed one is handled by the handler its topic selects |
| `Patrol.Assignments` | app/routes.py:116-130 | fails with CountMismatch iff the numbers of sentries and cards differ; otherwise the i-th sentry is paired with the i-th card's alias and RFID id |
| `Patrol.CreateStep` | app/routes.py:113-154 | with as many cards as sentries, one new row built from the generator's output and the assignments is stored under a new key, and every other row is kept; otherwise nothing changes |
| `Laws.DeselectIdempotent` | app/routes.py:331-343 | deselecting twice leaves the same globals and store as deselecting once |
| `Laws.SilenceIdempotent` | app/routes.py:669-673 | silencing twice leaves the same globals and store as silencing once |
| `Laws.SelectForgetsPreviousSession` | app/routes.py:280-295 | after selecting the same row, sessions that agree on ALARM_TRIGGERED, APP_CONNECTED, the device flags and the store are identical apart from the outbound log, whatever was monitored before |
| `Laws.DoneKeepsSaveTarget` | app/routes.py:647-654 | saving after DONE writes the same row with the same circuit as saving before it |
| `Laws.SaveKeepsRecordAlarms` | app/routes.py:317-319 | a save never changes any row's alarm times or completion flag |
| `Laws.SilenceThenSelect` | app/routes.py:280-295 | silencing and then selecting leaves the alarm off and ALARMS equal to the selected row's |
| `Laws.AlarmBeforeSelectionFails` | app/routes.py:39 | an overdue report before any selection sets ALARM_TRIGGERED, fails at the append, leaves ALARMS None and publishes nothing |
| `Laws.OverdueSilenceDoneScenario` | app/routes.py:280-654 | select, overdue, silence, done: one alarm time stays recorded through the silence, and the circuit ends completed with the shift off and the same current circuit |
| `Trace.KeyAbove` | app/routes.py:153-154 | the key lies above every stored key, so it is fresh for the new row |
| `Trace.Apply` | app/routes.py:108-675 | per input: only a silence clears the alarm; only a selection replaces ALARMS (a list is only appended to, and any other value is kept as it is) or resets completion; APP_CONNECTED is never cleared and changes only on a connect; only bus messages move device flags; the outbound log only grows |
| `Trace.Run` | app/routes.py:527-658 | no input leaves the session as it is; one input leaves the state that input leaves, whether it succeeded or failed |
| `Trace.RunConcatenates` | app/routes.py:527-658 | running two input sequences one after the other is running their concatenation, so each input starts from whatever the previous input left |
| `Trace.AlarmStaysUntilSilenced` | app/routes.py:588-595 | over any input sequence without a silence, a raised alarm stays raised |
| `Trace.AlarmHistoryAppendOnly` | app/routes.py:591-592 | over any input sequence without a selection, the alarm times only grow by appending |
| `Trace.CompletionIsMonotone` | app/routes.py:647-649 | over any input sequence without a selection, a completed circuit stays completed |
| `Trace.RunKeepsConnectionAndLog` | app/routes.py:517-521 | over any input sequence, APP_CONNECTED stays set once set, every device keeps a flag, and the outbound log only grows |
| `Trace.OnlyConnectMovesAppFlag` | app/routes.py:517-521 | over any input sequence without a broker connect, APP_CONNECTED keeps its value |
| `Trace.OnlyMessagesMoveFlags` | app/routes.py:546-563 | a sequence of operator actions and connects leaves every device flag unchanged |
| `Routes.Coordinator.constructor` | app/routes.py:23-60 | the fields start as the module initialises the globals |
| `Routes.Coordinator.SelectCircuit` | app/routes.py:280-298 | the fields and the result are exactly those of `Patrol.SelectStep` |
| `Routes.Coordinator.LoadSchedule` | app/routes.py:284-295 | the circuit, paths, bounds, completion and alarm globals are copied from the row, and nothing else changes |
| `Routes.Coordinator.SaveCurrentCircuit` | app/routes.py:317-319 | the fields and the result are exactly those of `Patrol.SaveStep` |
| `Routes.Coordinator.DeselectCircuit` | app/routes.py:331-343 | the fields are exactly those of `Patrol.DeselectStep` |
| `Routes.Coordinator.SilenceAlarm` | app/routes.py:669-673 | the fields are exactly those of `Patrol.SilenceStep` |
| `Routes.Coordinator.CreateRoute` | app/routes.py:115-154 | the fields and the result are exactly those of `Patrol.CreateStep` |
| `Routes.Coordinator.OnConnect` | app/routes.py:517-523 | the fields are exactly those of `Patrol.ConnectStep`; the loop subscribes the topics in order |
| `Routes.Coordinator.OnMessage` | app/routes.py:527-658 | the fields and the result are exactly those of `Patrol.MessageStep` |
| `Routes.Coordinator.HandleEvent` | app/routes.py:535-658 | the fields and the result are exactly those of `Patrol.EventStep` |
| `Routes.Coordinator.HandleConnectivity` | app/routes.py:546-563 | the fields are exactly those of `Patrol.ConnectivityStep` |
| `Routes.Coordinator.RaiseAlarm` | app/routes.py:588-595 | the fields and the result are exactly those of `Patrol.RaiseAlarm` |
| `Routes.Coordinator.HandleOverdue` | app/routes.py:581-598 | the fields and the result are exactly those of `Patrol.OverdueStep` |
| `Routes.Coordinator.HandleScan` | app/routes.py:609-645 | the fields and the result are exactly those of `Patrol.ScanStep` |
| `Routes.Coordinator.HandleDone` | app/routes.py:647-658 | the fields are exactly those of `Patrol.DoneStep` |

## Left out

- Page rendering, forms, redirects and flash messages are left out as user interface (`home`, the `view_*`, `register_*`, `update_*` and `delete_*` routes, `logout`). The store is an abstract map of Shift rows. A selection whose form does not validate (a GET, or a choice that is not a stored row) appears as NotFound with no change.
- Login and bcrypt password checking are left out: they are a foreign library.
- `utils.generate_circuit` and `utils.update_circuit` are parameters. Their source is not visible: generation comes in as a `Generated` value, and the circuit update as a function from the circuit and scan info to the new circuit. Whether `update_circuit` fails on a `None` circuit is not modelled.
- The primary key of a new Shift row and its column defaults for `completed` and `alarms` are parameters, because app/models.py is not part of this model. `CreateStep` requires the key to be unused, as the database guarantees.
- `id not in cards`, which compares an id with Card rows, is a membership predicate given as a parameter, because the Card equality it relies on is not visible.
- `datetime.now()` and the epoch-to-text formatting are left out, because they depend on the clock and time zone. The alarm time is a string parameter, and overdue alerts carry the raw epoch. `OverflowError` from out-of-range epochs is not modelled.
- JSON parsing (`json.loads`) is left out: events arrive as already-parsed `Json` values. Floating-point numbers and duplicate keys are not modelled.
- MQTT publish/subscribe and socket.io emit are I/O, recorded only as an ordered log of outbound effects. The `print` in the silence handler is left out.
- HTML message text beyond the tag, the card id, the checkpoint and the time is left out as cosmetic formatting.
- Concurrency between broker callback threads and request threads is left out: the code has no locking, and the model applies inputs one at a time.
- Aliasing is modelled with values. `SENTRY_CIRCUIT` and `ALARMS` share their lists with the loaded row object, and `update_circuit` and `append` mutate those lists in place. Only an explicit save writes the circuit back.
- What the MQTT client does with an exception raised inside a callback is left out. The model returns the error, keeps what was changed before the point of failure, and goes on with the next input.
- `CURRENT_SCANNED_SENTRY` is left out: it is declared but never assigned.
- `Text.Upper`: maps only the ASCII letters `a`–`z`. Python's `str.upper()` also maps other letters (for example `ß` becomes `SS`).
