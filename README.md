# Arduino test bench: test orchestration core in Dafny

This project models the core of a desktop test bench (gui.py and serial_handler.py).
An operator fills in six identifying fields and starts one of five tests. The
bench writes a command frame to a microcontroller over a serial port. It waits,
reads one reply line and classifies the reply. It then shows the result in the
test's slot and generates a report carrying an overall verdict.

Layout:

- `Wrappers.dfy`: `Option`.
- `Text.dfy`: the Python string operations the core relies on, over `seq<char>`.
  These are the substring test `sub in s`, `str.strip()` with Python's whitespace
  set, and `join`/`split` on one character.
- `Protocol.dfy`: the pure parts of gui.py. It covers the command frame, the
  reply classifier, the slot labels and indicator colours, and the report verdict.
- `Serial.dfy`: serial_handler.py. `Port` stands for the driver's port (open
  flag, what was written, lines received and not yet read). `SerialHandler` holds
  at most one port in `connection`. It guards sending, reading and closing with
  "connected and open".
- `Bench.dfy`: the `App` window reduced to its state as the class `TestBench`.
  That state is the fields and their background colours, the slots' labels and
  indicators, the connection indicator, the message boxes shown and the reports
  produced. A test run is specified by the pure function `Run`, from the state
  before the run to the state after it. Module `BenchScenarios` runs test 2
  against a device that answers "STATUS OK" and then against one that stays
  silent.

Where the program's intended behaviour and its code differ, the model follows
the code:

- When no reply arrives, the code leaves the slot untouched. It does not set the
  slot to "unknown" (`RunSlots`).
- An empty reply is never classified. It takes the "no response" path.
- The worker's command already ends in a newline, and `send_command` adds
  another one. So the wire carries the frame, an end of line and an empty line
  (`WireCarriesEmptyLine`).
- One exception: the report's verdict. As written it is list membership of
  `"OK"`, which is always failure. The bench's reports carry the corrected verdict
  `IntendedVerdict` instead. Both are under Findings, and the gap is listed under
  Left out.

Environment inputs are parameters:

- `opens` says whether the driver opens the port.
- `writeFault` says whether the write raises.
- `readFault` says how the read goes: `Clean`, `PortFault` (the port raises in
  `readline()` and nothing is consumed) or `DecodeFault` (the line is consumed and
  fails to decode).
- `arrivals` holds the lines the device sends during the two-second wait.
- `fault` is the message of an exception raised while a slot's widgets are updated.
- `reportPath` is the file name the report renderer returns.

## Model

| member | source | states |
|---|---|---|
| Text.Contains | gui.py:304-307 | The executable substring test is true exactly when `sub` occurs at some position of `s` (reference definition `Occurs`). |
| Text.ContainsInContext | gui.py:304-307 | A string containing `sub` still contains it with anything added before and after. |
| Text.Strip | serial_handler.py:42 | `strip()` returns a slice of the input with only whitespace before and after it, and neither end of the result is whitespace. |
| Text.StripTrimmed | serial_handler.py:42 | A string without whitespace at its ends is returned unchanged by `strip()`. |
| Text.StripIdempotent | serial_handler.py:42 | Stripping twice equals stripping once. |
| Text.JoinSplit | gui.py:260 | Splitting on the separator and joining again gives back the original string. |
| Text.SplitJoin | gui.py:260 | Joining tokens free of the separator and splitting again gives back the tokens. |
| Protocol.FrameTokens | gui.py:258-259 | The frame for test `n` has five tokens, each `START` or `UNUSED`, with `START` at position `n` and nowhere else. |
| Protocol.BuildCommand | gui.py:257-260 | The command built in a five-element array with `START` written over slot `n` is the frame body plus a newline, and its body decodes as test `n` (its tokens are exactly the frame of `n`). |
| Protocol.FrameRoundTrip | gui.py:258-260 | Every frame body splits back into its tokens and decodes as the test it was built for. |
| Protocol.DecodeFrameExact | gui.py:258-260 | A body that decodes as test `n` is exactly the frame body of test `n`. |
| Protocol.FrameInjective | gui.py:258-260 | Different tests are started by different frames. |
| Protocol.WireCarriesEmptyLine | serial_handler.py:28 | The bytes written for test `n` split on newlines into the frame body, an empty line and an empty remainder. |
| Protocol.Classify | gui.py:304-312 | A reply is an error iff it contains `ERROR`. It is a pass iff it contains `OK` but not `ERROR`. It is unknown iff it contains neither. |
| Protocol.ErrorWins | gui.py:304-306 | Any reply with `ERROR` in it is an error, whatever surrounds it. |
| Protocol.OkUnlessError | gui.py:307-309 | A reply with `OK` in it is a pass exactly when `ERROR` does not occur in it. |
| Protocol.Label | gui.py:304-312 | The label for an outcome is a slot label other than the placeholder. It is "Успех" exactly for a pass, "Ошибка" exactly for an error and "Неизвестный результат" exactly for an unknown reply. |
| Protocol.Indicator | gui.py:304-312 | The colour for an outcome is green exactly for a pass, red exactly for an error and gray exactly for an unknown reply. |
| Protocol.LabelsMatchIndicators | gui.py:304-314 | Each outcome's label is a slot label, and its colour is the one that goes with that label. Distinct outcomes have distinct labels, none of them the placeholder. |
| Protocol.FaultLabelIsRed | gui.py:315-317 | The "Ошибка: e" fault label is a slot label, shows red and differs from every other label. |
| Protocol.AsWrittenVerdict | gui.py:294 | The program's verdict is success exactly when some element of the list of slot labels equals "OK". |
| Protocol.IntendedVerdict | gui.py:294 | The corrected verdict is success exactly when some slot shows "Успех". |
| Protocol.AsWrittenVerdictAlwaysFails | gui.py:294 | Over labels a slot can show, the program's verdict `"OK" in test_results` is always failure. |
| Protocol.AsWrittenVerdictMissesPass | gui.py:281-294 | With only slot 2 showing "Успех", the program's verdict is failure while the intended verdict is success. |
| Protocol.VerdictFollowsIndicators | gui.py:294 | With indicators matching labels, the intended verdict is success exactly when some indicator is green. |
| Serial.ReadLineSplitsQueue | serial_handler.py:42 | One `readline()` takes exactly the first queued line and leaves the rest. |
| Serial.Port.Open | serial_handler.py:15 | A newly opened port records its name, rate and timeout, is open, and has written and received nothing. |
| Serial.Port.Write | serial_handler.py:28 | Writing appends the data to what the port has been sent and changes nothing else. |
| Serial.Port.ReadLine | serial_handler.py:42 | Reading returns the first queued line, or "" when none is queued, and removes it from the queue. |
| Serial.Port.Close | serial_handler.py:58 | Closing leaves the port closed and its traffic unchanged. |
| Serial.SerialHandler.constructor | serial_handler.py:4-5 | A new handler has no connection. |
| Serial.SerialHandler.Connect | serial_handler.py:7-19 | On success the handler holds a fresh open port with the given name, rate and timeout (1 by default). On failure it holds no connection. |
| Serial.SerialHandler.SendCommand | serial_handler.py:21-33 | The command plus a newline is written exactly when the port is connected and open and the write does not fail. Otherwise nothing is written, and the connection never changes. |
| Serial.SerialHandler.ReadData | serial_handler.py:35-51 | When connected, open and the read succeeds, the result is the first queued line stripped and that line is consumed. When the line fails to decode, the result is "" but the line is still consumed. When not connected, or when the port raises, the result is "" and nothing is consumed. The result never has whitespace at its ends. |
| Serial.SerialHandler.Close | serial_handler.py:53-61 | An open port is closed with its traffic unchanged. Otherwise nothing happens. The port stays referenced. |
| Bench.FlagColours | gui.py:249-253 | A field's background is red exactly when it is empty and white exactly when it is filled. |
| Bench.ResultAgrees | gui.py:299-317 | The label written to a slot, after a reply or after a widget fault, is a slot label, and the colour written is the one that goes with it. |
| Bench.Response | serial_handler.py:35-51 | The reply a test reads has no whitespace at its ends, and it is "" when there is no open connection or the read fails. |
| Bench.QueueAfterRead | serial_handler.py:40-48 | A read takes exactly the first queued line off the queue, unless there is no open connection or the port raised, in which case the queue is unchanged. |
| Bench.ReportOf | gui.py:280-294 | A report carries the operator, object, block, place and connection fields, and its status is success exactly when some slot shows "Успех" (the corrected verdict). |
| Bench.Run | gui.py:257-270 | Every run shows exactly one message after the earlier ones, and that message is the "Нет ответа от устройства" error exactly when the reply is empty. |
| Bench.RunSlots | gui.py:257-270 | After a run, the port is the result of the exchange. With an empty reply no slot and no report changes. Otherwise slot `n` gets the reply's label and colour, and one report of the updated slots is added when there is an operator name. |
| Bench.RunKeepsSlotsAgreeing | gui.py:266-267 | After any run, every slot still shows a slot label with the colour that goes with it. |
| Bench.RunTouchesOnlySlot | gui.py:257-270 | A run changes no slot other than `n`. Without a reply it changes no slot and no report. It adds at most one report and keeps the earlier ones. |
| Bench.RunReportFollowsIndicators | gui.py:268 | A report added by a run says success exactly when some indicator is green after the run. |
| Bench.PassingReplyReported | gui.py:264-268 | A clean read of a passing reply on an open port marks slot `n` "Успех" in green and, with an operator name, adds one report whose verdict is success. |
| Bench.TestBench.constructor | gui.py:137-170 | The window opens with every slot on the placeholder in gray, the date field holding today's date and the other fields empty. There is no connection, the indicator is red, and no messages or reports exist. |
| Bench.TestBench.SetEntry | gui.py:117-122 | Typing into one field changes that field alone and keeps the bench's invariant. |
| Bench.TestBench.SelectPort | gui.py:322-324 | The chosen port becomes the selected port. |
| Bench.TestBench.ToggleConnection | gui.py:225-244 | An open port is closed with "closed" shown. Otherwise the selected port is connected at 9600 baud with "connected" or "could not connect" shown. The indicator ends green exactly when the port is open, and slots, fields and reports are untouched. |
| Bench.TestBench.FlagEmptyFields | gui.py:249-253 | The loop colours every field by the `FlagColours` rule. |
| Bench.TestBench.StartTest | gui.py:246-272 | With an empty field, the fields are flagged, "fill in all fields" is shown, nothing is sent and no slot, report or port changes. With all fields filled, the state after the test is `Run` of the state before it. |
| Bench.TestBench.RefuseTest | gui.py:247-255 | A refused test colours every field by the `FlagColours` rule and shows "fill in all fields". |
| Bench.TestBench.RunTest | gui.py:257-270 | The state after the worker's run is `Run` of the state before it, and every slot still agrees with its indicator. |
| Bench.TestBench.TalkToDevice | gui.py:258-264 | The frame for test `n` is written when the port is open and the write succeeds, the device's lines arrive during the wait, and one line is read. The reply and the new port are `ReplyOf` and `Exchange` of the old port. |
| Bench.TestBench.HandleTestResponse | gui.py:299-317 | Slot `n` gets the label and colour of the reply's outcome, or the red fault label when the widget update raises. The other slots keep theirs, and every slot's colour still matches its label. |
| Bench.TestBench.GenerateReportAfterTest | gui.py:274-297 | With no operator name, "fill in operator data" is shown and no report is made. Otherwise one report holding five of the fields and the verdict of the current slots is added, and the "report generated" message names its path. The new state is `AfterReport` of the old one. |
| BenchScenarios.StatusOkPasses | gui.py:304-309 | The reply "STATUS OK" has no whitespace at its ends and classifies as a pass. |
| BenchScenarios.OpenBench | gui.py:225-244 | Filling the fields, choosing a port and toggling the connection gives a valid bench with every field filled, an open port and nothing sent or queued. |
| BenchScenarios.QueuedReply | serial_handler.py:42 | A reply queued on an open, empty port is the next line read, and the queue is empty afterwards. |
| BenchScenarios.PassingRun | gui.py:246-272 | A passing reply to test `n` writes the frame for `n` and marks slot `n` "Успех" in green. It adds one report whose verdict is success. |
| BenchScenarios.SilentRun | gui.py:262-270 | When the device stays silent, the frame is written, no slot or report changes, and "no response" is shown. |
| BenchScenarios.PassThenSilence | gui.py:246-272 | Test 2 answered "STATUS OK" and then left unanswered leaves slot 2 passing in green, with one success report. The program's own verdict over the same slots is failure. Two identical frames are written and "no response" is the last message. |

## Left out

- The Tkinter window itself (layout, menus, the splash screen, the port dialog and its two-second port polling) is left out. Only the state these widgets show is modelled.
- Threads, `time.sleep(2)` and the races between a running test, another test and a connection toggle are not modelled. A test run is one atomic step, and the device's lines during the wait are the `arrivals` parameter.
- `update_voltage_display` (gui.py:206-219) is left out: it is never scheduled, and it would compete with a test for the same reply line.
- Settings persistence (`load_settings`/`save_settings`, which use different file names) and the auto-connect checkbox are file I/O outside the core.
- `on_port_selected` is modelled only as `SelectPort`. Its settings save and auto-connect are left out for the same reason.
- `open_last_report`, `open_archive`, `create_reports_folder` and the reports folder creation at gui.py:284-286 are filesystem operations. They are left out.
- PDF rendering and the clock-based file name are left out. The renderer is represented by the `reportPath` parameter, and the report by the `Report` value it is given.
- `print_report` (gui.py:332-342) is left out. With no operator name it shows "Заполните данные оператора" and returns. With a name it raises at the slot unpack on gui.py:339, the same unpack as gui.py:281; its `generate` call at gui.py:341 also passes the wrong number of arguments.
- Bench.ReportOf: the report's status is the corrected verdict `IntendedVerdict` (some slot shows "Успех"). The program's `"OK" in test_results` (gui.py:294) gives failure for every reachable slot state. The success text of the report renderer reads as "all tests passed", so "some test passed" is a reading of the intent, not a certainty.
- Bench.TestBench.StartTest: reports it adds carry the corrected verdict, not the program's always-failure verdict, as `Bench.ReportOf` says.
- Bench.TestBench.RunTest: reports it adds carry the corrected verdict, for the same reason.
- Bench.TestBench.GenerateReportAfterTest: the report's status is the corrected verdict, for the same reason.
- Bench.RunSlots: the report it adds is `ReportOf`, so its status is the corrected verdict, as `Bench.ReportOf` says.
- Bench.RunReportFollowsIndicators: the report's verdict is the corrected one, as `Bench.ReportOf` says; the program's verdict would be failure whatever the indicators show.
- Bench.PassingReplyReported: it promises a success report, which the program's own verdict never gives.
- BenchScenarios.PassingRun: it promises a success report, which the program's own verdict never gives.
- BenchScenarios.PassThenSilence: it promises a success report. It also proves that the program's own verdict over the same slots is failure.
- Bench.TestBench.GenerateReportAfterTest: gui.py:281 unpacks each three-element slot tuple into two names, which raises before any report is made. The model follows the evident intent (the slots' labels) instead of reproducing the exception.
- UTF-8 encoding and decoding on the wire are left out. Strings are sequences of characters. A line that fails to decode is the `DecodeFault` case: it is consumed and read as "".
- Serial.Port.ReadLine: the port's input is a queue of whole lines. Partial lines that a timeout cuts short are not modelled.
- Serial.SerialHandler.SendCommand: a write fault writes nothing. Partial writes before the fault are not modelled.
- Bench.TestBench.HandleTestResponse: when the widget update raises, the second `itemconfig` in the handler (gui.py:317) is assumed not to raise as well.
- The `print` diagnostics of serial_handler.py go to the console and are left out.
- The unused `test_results` attribute (gui.py:93) and the unused "connection checked" checkbox are left out.
- The serial line's data bits, parity and stop bits are left out. They are driver defaults that the code never sets.
- `DecodeFrame` and `IndexOf` model the device's reading of a frame. The device's firmware is not part of this model.

## Findings

| source | as written | input that shows it | evidently intended | confidence | as-written member | corrected member |
|---|---|---|---|---|---|---|
| gui.py:294 | `"success" if "OK" in test_results` tests whether some slot's label equals the string "OK", which no label ever does | slots showing placeholder, placeholder, "Успех", placeholder, placeholder after test 2 passed | success when some slot shows the pass label "Успех" (some indicator green) | medium, not executed | Protocol.AsWrittenVerdictMissesPass | Protocol.VerdictFollowsIndicators |
