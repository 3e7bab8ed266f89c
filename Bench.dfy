/**
 * The test bench application (the `App` window of gui.py), reduced to its
 * bookkeeping: the six operator fields, the five result slots with their
 * labels and indicators, the connection indicator, the message boxes shown
 * and the reports produced. Widgets, threads and files are not part of it.
 */
module Bench {
  import opened Wrappers
  import opened Text
  import opened Protocol
  import opened Serial

  /** The operator fields, in the order the window lists them. */
  const FieldCount: nat := 6
  const OperatorField: nat := 0    // operator's full name
  const DateField: nat := 1        // date of the tests
  const ObjectField: nat := 2      // object
  const BlockField: nat := 3       // block number
  const PlaceField: nat := 4       // place of the tests
  const ConnectionField: nat := 5  // name of the connection

  /** The rate the bench always opens its port at. */
  const BaudRate: nat := 9600

  const FillFieldsText := "Заполните все обязательные поля"
  const NoResponseText := "Нет ответа от устройства"
  const FillOperatorText := "Заполните данные оператора"
  const ReportDoneText := "Отчет успешно сгенерирован!\nСохранен по пути: "
  const ClosedText := "Подключение закрыто."
  const ConnectedText := "Успешное подключение."
  const ConnectFailedText := "Не удалось подключиться: Не удалось подключиться"

  /** A message box the bench shows to the operator. */
  datatype Message = InfoBox(text: string) | ErrorBox(text: string)

  /** What the report generator is given: five of the operator fields and the verdict. */
  datatype Report = Report(operator: string, objectName: string, blockNumber: string,
                           testPlace: string, connectionName: string, status: Verdict)

  /** Every operator field has been filled in. */
  predicate AllFilled(entries: seq<string>)
  {
    forall i :: 0 <= i < |entries| ==> entries[i] != ""
  }

  /** The background each field gets when a test is refused: red when empty, white otherwise. */
  function FlagColours(entries: seq<string>): (colours: seq<Colour>)
    ensures |colours| == |entries|
    ensures forall i :: 0 <= i < |entries| ==> (colours[i] == Red <==> entries[i] == "")
    ensures forall i :: 0 <= i < |entries| ==> (colours[i] == White <==> entries[i] != "")
  {
    seq(|entries|, i requires 0 <= i < |entries| => if entries[i] == "" then Red else White)
  }

  /** The label a slot shows after `response`, or after a widget fault with message `e`. */
  function ResultLabel(response: string, fault: Option<string>): string
  {
    match fault
    case None => Label(Classify(response))
    case Some(e) => FaultLabel(e)
  }

  /** The indicator colour a slot shows after `response`, or red after a widget fault. */
  function ResultColour(response: string, fault: Option<string>): Colour
  {
    match fault
    case None => Indicator(Classify(response))
    case Some(_) => Red
  }

  /** The label written to a slot is one a slot can show, and its colour is the one that goes with it. */
  lemma ResultAgrees(response: string, fault: Option<string>)
    ensures IsSlotLabel(ResultLabel(response, fault))
    ensures IndicatorFor(ResultLabel(response, fault)) == ResultColour(response, fault)
  {
    match fault
    case None => LabelsMatchIndicators(Classify(response), Classify(response));
    case Some(e) => FaultLabelIsRed(e);
  }

  /** The reply a test reads: the first queued line, stripped, or "" when there is no connection or the read fails. */
  function Response(connected: bool, readFault: ReadFault, queue: seq<string>): (r: string)
    ensures Trimmed(r)
    ensures !connected || readFault != Clean ==> r == ""
  {
    if connected && readFault == Clean then Strip(NextLine(queue)) else ""
  }

  /** The lines still queued after a test's read: one fewer unless there is no connection or the port raised. */
  function QueueAfterRead(connected: bool, readFault: ReadFault, queue: seq<string>): (rest: seq<string>)
    ensures !connected || readFault == PortFault ==> rest == queue
    ensures connected && readFault != PortFault && queue != [] ==> [queue[0]] + rest == queue
  {
    if connected && readFault != PortFault then AfterLine(queue) else queue
  }

  /** The report generated from the operator fields and the slot labels. */
  function ReportOf(entries: seq<string>, results: seq<string>): (r: Report)
    requires |entries| == FieldCount
    ensures r.operator == entries[OperatorField] && r.objectName == entries[ObjectField]
    ensures r.blockNumber == entries[BlockField] && r.testPlace == entries[PlaceField]
    ensures r.connectionName == entries[ConnectionField]
    ensures r.status == Success <==> exists i :: 0 <= i < |results| && results[i] == SuccessLabel
  {
    Report(entries[OperatorField], entries[ObjectField], entries[BlockField],
           entries[PlaceField], entries[ConnectionField], IntendedVerdict(results))
  }

  /** Every slot shows a label a slot can show, with the indicator colour that goes with that label. */
  predicate SlotsAgree(results: seq<string>, indicators: seq<Colour>)
  {
    && |results| == SlotCount && |indicators| == SlotCount
    && (forall i :: 0 <= i < SlotCount ==> IsSlotLabel(results[i]))
    && (forall i :: 0 <= i < SlotCount ==> indicators[i] == IndicatorFor(results[i]))
  }

  /** A port as a test run sees it: whether it is open, what it was sent, what it holds unread. */
  datatype Link = Link(isOpen: bool, written: seq<string>, incoming: seq<string>)

  /** The part of the bench a test run reads or changes; `link` is None when there is no port. */
  datatype RunState = RunState(link: Option<Link>, results: seq<string>, indicators: seq<Colour>,
                               messages: seq<Message>, reports: seq<Report>)

  /** The lines a port holds once the device's `arrivals` have come in during the wait. */
  function Waited(l: Link, arrivals: seq<string>): seq<string>
  {
    if l.isOpen then l.incoming + arrivals else l.incoming
  }

  /** The reply a test run reads from `link`. */
  function ReplyOf(link: Option<Link>, arrivals: seq<string>, readFault: ReadFault): string
  {
    match link
    case None => ""
    case Some(l) => Response(l.isOpen, readFault, Waited(l, arrivals))
  }

  /** The port after the command for test `n` is sent, the wait passes and one line is read. */
  function Exchange(n: nat, link: Option<Link>, arrivals: seq<string>,
                    writeFault: bool, readFault: ReadFault): Option<Link>
    requires n < SlotCount
  {
    match link
    case None => None
    case Some(l) =>
      Some(Link(l.isOpen,
                if l.isOpen && !writeFault then l.written + [CommandLine(n) + "\n"] else l.written,
                QueueAfterRead(l.isOpen, readFault, Waited(l, arrivals))))
  }

  /**
   * The report step: with an empty operator name only an error is shown;
   * otherwise a report of the fields and the current slots is added and the
   * "report generated" message names `reportPath`.
   */
  function AfterReport(entries: seq<string>, reportPath: string, s: RunState): RunState
    requires |entries| == FieldCount
  {
    if entries[OperatorField] == "" then
      s.(messages := s.messages + [ErrorBox(FillOperatorText)])
    else
      s.(reports := s.reports + [ReportOf(entries, s.results)],
         messages := s.messages + [InfoBox(ReportDoneText + reportPath)])
  }

  /**
   * One run of test `n` from state `s`: the port exchange, then either the
   * "no response" error for an empty reply, or slot `n` set from the reply
   * followed by the report step.
   */
  function Run(n: nat, arrivals: seq<string>, writeFault: bool, readFault: ReadFault,
               fault: Option<string>, reportPath: string, entries: seq<string>, s: RunState): (r: RunState)
    requires n < SlotCount && n < |s.results| && n < |s.indicators| && |entries| == FieldCount
    ensures |r.messages| == |s.messages| + 1 && r.messages[..|s.messages|] == s.messages
    ensures r.messages[|s.messages|] == ErrorBox(NoResponseText) <==> ReplyOf(s.link, arrivals, readFault) == ""
  {
    var response := ReplyOf(s.link, arrivals, readFault);
    var link := Exchange(n, s.link, arrivals, writeFault, readFault);
    if response == "" then
      s.(link := link, messages := s.messages + [ErrorBox(NoResponseText)])
    else
      AfterReport(entries, reportPath,
                  s.(link := link,
                     results := s.results[n := ResultLabel(response, fault)],
                     indicators := s.indicators[n := ResultColour(response, fault)]))
  }

  /** The slots and reports after a run, in terms of the reply the run reads. */
  lemma RunSlots(n: nat, arrivals: seq<string>, writeFault: bool, readFault: ReadFault,
                 fault: Option<string>, reportPath: string, entries: seq<string>, s: RunState)
    requires n < SlotCount && n < |s.results| && n < |s.indicators| && |entries| == FieldCount
    ensures var t := Run(n, arrivals, writeFault, readFault, fault, reportPath, entries, s);
            var response := ReplyOf(s.link, arrivals, readFault);
            && t.link == Exchange(n, s.link, arrivals, writeFault, readFault)
            && (response == "" ==> t.results == s.results && t.indicators == s.indicators && t.reports == s.reports)
            && (response != "" ==>
                  && t.results == s.results[n := ResultLabel(response, fault)]
                  && t.indicators == s.indicators[n := ResultColour(response, fault)]
                  && t.reports == (if entries[OperatorField] == "" then s.reports
                                   else s.reports + [ReportOf(entries, t.results)]))
  {
    var response := ReplyOf(s.link, arrivals, readFault);
    var link := Exchange(n, s.link, arrivals, writeFault, readFault);
    if response != "" {
      var u := s.(link := link,
                  results := s.results[n := ResultLabel(response, fault)],
                  indicators := s.indicators[n := ResultColour(response, fault)]);
      var t := AfterReport(entries, reportPath, u);
      assert t == Run(n, arrivals, writeFault, readFault, fault, reportPath, entries, s);
      assert t.results == u.results && t.indicators == u.indicators && t.link == link;
    }
  }

  /** A run keeps every slot's label a slot label with the colour that goes with it. */
  lemma RunKeepsSlotsAgreeing(n: nat, arrivals: seq<string>, writeFault: bool, readFault: ReadFault,
                              fault: Option<string>, reportPath: string, entries: seq<string>, s: RunState)
    requires n < SlotCount && |entries| == FieldCount && SlotsAgree(s.results, s.indicators)
    ensures var t := Run(n, arrivals, writeFault, readFault, fault, reportPath, entries, s);
            SlotsAgree(t.results, t.indicators)
  {
    var response := ReplyOf(s.link, arrivals, readFault);
    RunSlots(n, arrivals, writeFault, readFault, fault, reportPath, entries, s);
    if response != "" {
      var results := s.results[n := ResultLabel(response, fault)];
      var indicators := s.indicators[n := ResultColour(response, fault)];
      ResultAgrees(response, fault);
      SlotUpdateAgrees(s.results, s.indicators, n, ResultLabel(response, fault), ResultColour(response, fault));
    }
  }

  /** Writing one slot a slot label and its colour keeps all slots agreeing. */
  lemma SlotUpdateAgrees(results: seq<string>, indicators: seq<Colour>, n: nat, shown: string, c: Colour)
    requires SlotsAgree(results, indicators) && n < SlotCount
    requires IsSlotLabel(shown) && c == IndicatorFor(shown)
    ensures SlotsAgree(results[n := shown], indicators[n := c])
  {
  }

  /**
   * Without a reply nothing but the port and the messages changes: no slot,
   * no report. With one, only slot `n` changes.
   */
  lemma RunTouchesOnlySlot(n: nat, arrivals: seq<string>, writeFault: bool, readFault: ReadFault,
                           fault: Option<string>, reportPath: string, entries: seq<string>, s: RunState)
    requires n < SlotCount && |entries| == FieldCount && SlotsAgree(s.results, s.indicators)
    ensures var t := Run(n, arrivals, writeFault, readFault, fault, reportPath, entries, s);
            && |t.results| == SlotCount && |t.indicators| == SlotCount
            && (forall k :: 0 <= k < SlotCount && k != n ==> t.results[k] == s.results[k] && t.indicators[k] == s.indicators[k])
            && (ReplyOf(s.link, arrivals, readFault) == "" ==>
                  t.results == s.results && t.indicators == s.indicators && t.reports == s.reports)
            && |s.reports| <= |t.reports| <= |s.reports| + 1
            && t.reports[..|s.reports|] == s.reports
  {
    var response := ReplyOf(s.link, arrivals, readFault);
    var t := Run(n, arrivals, writeFault, readFault, fault, reportPath, entries, s);
    RunSlots(n, arrivals, writeFault, readFault, fault, reportPath, entries, s);
    if response != "" {
      assert t.results == s.results[n := ResultLabel(response, fault)];
      assert t.indicators == s.indicators[n := ResultColour(response, fault)];
      if entries[OperatorField] != "" {
        assert t.reports[..|s.reports|] == s.reports;
      }
    }
  }

  /**
   * A report added by a run says success exactly when, after the run, some
   * indicator is green.
   */
  lemma RunReportFollowsIndicators(n: nat, arrivals: seq<string>, writeFault: bool, readFault: ReadFault,
                                   fault: Option<string>, reportPath: string, entries: seq<string>, s: RunState)
    requires n < SlotCount && |entries| == FieldCount && SlotsAgree(s.results, s.indicators)
    ensures var t := Run(n, arrivals, writeFault, readFault, fault, reportPath, entries, s);
            |t.reports| == |s.reports| + 1 ==>
              (t.reports[|s.reports|].status == Success <==> Green in t.indicators)
  {
    var t := Run(n, arrivals, writeFault, readFault, fault, reportPath, entries, s);
    RunKeepsSlotsAgreeing(n, arrivals, writeFault, readFault, fault, reportPath, entries, s);
    VerdictFollowsIndicators(t.results, t.indicators);
  }

  /**
   * A clean read of a passing reply on an open port marks slot `n` "Успех"
   * in green, leaves the other slots alone and, with an operator name,
   * adds one report whose verdict is success.
   */
  lemma {:induction false} PassingReplyReported(n: nat, arrivals: seq<string>, reportPath: string,
                                                entries: seq<string>, s: RunState)
    requires n < SlotCount && SlotsAgree(s.results, s.indicators)
    requires |entries| == FieldCount && entries[OperatorField] != ""
    requires s.link.Some? && s.link.value.isOpen
    requires Strip(NextLine(Waited(s.link.value, arrivals))) != ""
    requires Classify(Strip(NextLine(Waited(s.link.value, arrivals)))) == Ok
    ensures var t := Run(n, arrivals, false, Clean, None, reportPath, entries, s);
            && t.results == s.results[n := SuccessLabel] && t.indicators == s.indicators[n := Green]
            && |t.reports| == |s.reports| + 1 && t.reports[|s.reports|].status == Success
  {
    var t := Run(n, arrivals, false, Clean, None, reportPath, entries, s);
    assert t.results[n] == SuccessLabel;
  }

  class TestBench {
    const serial: SerialHandler
    /** The port chosen in the port dialog. */
    var selectedPort: string
    /** The operator fields' contents and background colours. */
    var entries: seq<string>
    var entryBackgrounds: seq<Colour>
    /** Each slot's label and indicator colour. */
    var results: seq<string>
    var indicators: seq<Colour>
    var connectionIndicator: Colour
    /** Message boxes shown, oldest first. */
    var messages: seq<Message>
    /** Reports generated, oldest first. */
    var reports: seq<Report>

    /**
     * Six fields, five slots; every slot shows a label a slot can show and
     * the indicator colour that goes with that label.
     */
    ghost predicate Valid()
      reads this
    {
      && |entries| == FieldCount && |entryBackgrounds| == FieldCount
      && SlotsAgree(results, indicators)
    }

    /** The handler's port as a test run sees it. */
    ghost function LinkNow(): Option<Link>
      reads serial, serial.connection
    {
      if serial.connection == null then None
      else Some(Link(serial.connection.isOpen, serial.connection.written, serial.connection.incoming))
    }

    /** What a test run sees of the bench. */
    ghost function State(): RunState
      reads this, serial, serial.connection
    {
      RunState(LinkNow(), results, indicators, messages, reports)
    }

    /**
     * The window as it opens: every slot shows the placeholder on gray, the
     * date field holds `today`, the other fields are empty, there is no
     * connection and its indicator is red.
     */
    constructor(today: string)
      ensures Valid() && fresh(serial) && serial.connection == null
      ensures results == seq(SlotCount, _ => Placeholder)
      ensures indicators == seq(SlotCount, _ => Gray)
      ensures entries == ["", today, "", "", "", ""]
      ensures entryBackgrounds == seq(FieldCount, _ => Default)
      ensures selectedPort == "" && connectionIndicator == Red
      ensures messages == [] && reports == []
    {
      serial := new SerialHandler();
      selectedPort := "";
      entries := ["", today, "", "", "", ""];
      entryBackgrounds := seq(FieldCount, _ => Default);
      results := seq(SlotCount, _ => Placeholder);
      indicators := seq(SlotCount, _ => Gray);
      connectionIndicator := Red;
      messages := [];
      reports := [];
    }

    /** The operator types `text` into field `field`. */
    method SetEntry(field: nat, text: string)
      requires Valid() && field < FieldCount
      modifies this`entries
      ensures Valid() && entries == old(entries)[field := text]
    {
      entries := entries[field := text];
    }

    /** A port is chosen in the port dialog. */
    method SelectPort(port: string)
      modifies this`selectedPort
      ensures selectedPort == port
    {
      selectedPort := port;
    }

    /**
     * Closes the port when it is open (indicator red); otherwise connects to
     * the selected port at 9600 baud, `opens` saying whether that succeeds.
     * The indicator ends green exactly when the port ended up open.
     */
    method ToggleConnection(opens: bool)
      requires Valid()
      modifies this, serial, serial.connection
      ensures Valid()
      ensures connectionIndicator == (if serial.Connected() then Green else Red)
      ensures old(serial.Connected()) ==>
                && serial.connection == old(serial.connection)
                && !serial.connection.isOpen
                && serial.connection.written == old(serial.connection.written)
                && serial.connection.incoming == old(serial.connection.incoming)
                && messages == old(messages) + [InfoBox(ClosedText)]
      ensures !old(serial.Connected()) && opens ==>
                && fresh(serial.connection) && serial.Connected()
                && serial.connection.name == selectedPort
                && serial.connection.baudRate == BaudRate && serial.connection.timeout == 1
                && serial.connection.written == [] && serial.connection.incoming == []
                && messages == old(messages) + [InfoBox(ConnectedText)]
      ensures !old(serial.Connected()) && !opens ==>
                serial.connection == null && messages == old(messages) + [ErrorBox(ConnectFailedText)]
      ensures selectedPort == old(selectedPort) && entries == old(entries)
      ensures entryBackgrounds == old(entryBackgrounds)
      ensures results == old(results) && indicators == old(indicators) && reports == old(reports)
    {
      if serial.connection != null && serial.connection.isOpen {
        serial.connection.Close();
        connectionIndicator := Red;
        messages := messages + [InfoBox(ClosedText)];
      } else {
        serial.Connect(selectedPort, BaudRate, opens);
        if serial.connection != null && serial.connection.isOpen {
          connectionIndicator := Green;
          messages := messages + [InfoBox(ConnectedText)];
        } else {
          connectionIndicator := Red;
          messages := messages + [ErrorBox(ConnectFailedText)];
        }
      }
    }

    /** Colours every empty field red and every filled one white. */
    method FlagEmptyFields()
      requires Valid()
      modifies this`entryBackgrounds
      ensures Valid() && entryBackgrounds == FlagColours(entries)
    {
      var i := 0;
      while i < |entries|
        invariant 0 <= i <= |entries| && |entryBackgrounds| == |entries|
        invariant forall k :: 0 <= k < i ==> entryBackgrounds[k] == (if entries[k] == "" then Red else White)
      {
        if entries[i] == "" {
          entryBackgrounds := entryBackgrounds[i := Red];
        } else {
          entryBackgrounds := entryBackgrounds[i := White];
        }
        i := i + 1;
      }
    }

    /**
     * Starts test `n`. With an empty operator field nothing is sent: the
     * empty fields are flagged and an error is shown. Otherwise the test runs
     * as `Run` describes; `arrivals` are the lines the device sends while the
     * bench waits for its reply.
     */
    method StartTest(n: nat, arrivals: seq<string>, writeFault: bool, readFault: ReadFault,
                     fault: Option<string>, reportPath: string)
      requires Valid() && n < SlotCount
      modifies this, serial.connection
      ensures Valid() && serial.connection == old(serial.connection)
      ensures entries == old(entries) && selectedPort == old(selectedPort)
      ensures connectionIndicator == old(connectionIndicator)
      ensures !AllFilled(old(entries)) ==>
                && entryBackgrounds == FlagColours(entries)
                && State() == old(State()).(messages := old(messages) + [ErrorBox(FillFieldsText)])
      ensures AllFilled(old(entries)) ==>
                && entryBackgrounds == old(entryBackgrounds)
                && State() == Run(n, arrivals, writeFault, readFault, fault, reportPath, entries, old(State()))
    {
      if !AllFilled(entries) {
        RefuseTest();
      } else {
        RunTest(n, arrivals, writeFault, readFault, fault, reportPath);
      }
    }

    /** A test refused for an empty field: the fields are flagged and "fill in all fields" is shown. */
    method RefuseTest()
      requires Valid()
      modifies this`entryBackgrounds, this`messages
      ensures Valid() && entryBackgrounds == FlagColours(entries)
      ensures messages == old(messages) + [ErrorBox(FillFieldsText)]
    {
      FlagEmptyFields();
      messages := messages + [ErrorBox(FillFieldsText)];
    }

    /**
     * One run of test `n` once the fields are filled: send the command, let
     * the device's `arrivals` come in during the wait, read one reply; a
     * non-empty reply updates slot `n` and triggers the report.
     */
    method RunTest(n: nat, arrivals: seq<string>, writeFault: bool, readFault: ReadFault,
                   fault: Option<string>, reportPath: string)
      requires Valid() && n < SlotCount && AllFilled(entries)
      modifies this`results, this`indicators, this`messages, this`reports, serial.connection
      ensures Valid()
      ensures State() == Run(n, arrivals, writeFault, readFault, fault, reportPath, entries, old(State()))
    {
      ghost var s0 := State();
      var response := TalkToDevice(n, arrivals, writeFault, readFault);
      ghost var s1 := State();
      assert s1 == s0.(link := Exchange(n, s0.link, arrivals, writeFault, readFault));
      if response != "" {
        HandleTestResponse(n, response, fault);
        assert State() == s1.(results := s0.results[n := ResultLabel(response, fault)],
                              indicators := s0.indicators[n := ResultColour(response, fault)]);
        GenerateReportAfterTest(reportPath);
      } else {
        messages := messages + [ErrorBox(NoResponseText)];
      }
    }

    /**
     * The serial side of a run: send the command for test `n`, let the
     * device's `arrivals` come in during the wait, and read one reply.
     */
    method TalkToDevice(n: nat, arrivals: seq<string>, writeFault: bool, readFault: ReadFault)
      returns (response: string)
      requires n < SlotCount
      modifies serial.connection
      ensures response == ReplyOf(old(LinkNow()), arrivals, readFault)
      ensures LinkNow() == Exchange(n, old(LinkNow()), arrivals, writeFault, readFault)
    {
      var command := BuildCommand(n);
      serial.SendCommand(command, writeFault);
      if serial.connection == null {
        response := serial.ReadData(readFault);
        return;
      }
      ghost var l1 := LinkNow().value;
      if serial.connection.isOpen {
        serial.connection.Receive(arrivals);
      }
      ghost var queue := serial.connection.incoming;
      assert queue == Waited(l1, arrivals);
      response := serial.ReadData(readFault);
      assert response == Response(l1.isOpen, readFault, queue);
      assert serial.connection.incoming == QueueAfterRead(l1.isOpen, readFault, queue);
    }

    /**
     * Classifies `response` for test `n` and writes slot `n`'s label and
     * indicator; `fault` is the message of an exception raised while the
     * widgets are updated, which turns the slot into a red fault label.
     * The other slots keep what they showed.
     */
    method HandleTestResponse(n: nat, response: string, fault: Option<string>)
      requires Valid() && n < SlotCount
      modifies this`results, this`indicators
      ensures Valid()
      ensures results == old(results)[n := ResultLabel(response, fault)]
      ensures indicators == old(indicators)[n := ResultColour(response, fault)]
    {
      ResultAgrees(response, fault);
      var o := Classify(response);
      if fault.Some? {
        results := results[n := FaultLabel(fault.value)];
        indicators := indicators[n := Red];
      } else {
        results := results[n := Label(o)];
        indicators := indicators[n := Indicator(o)];
      }
    }

    /**
     * Produces a report from the operator fields and the slots' labels; with
     * an empty operator name it shows an error instead. `reportPath` is the
     * file the renderer names. gui.py:281 as written raises on its slot
     * unpack before any report is made; this method follows the evident
     * intent and reads the slots' labels.
     */
    method GenerateReportAfterTest(reportPath: string)
      requires Valid()
      modifies this`messages, this`reports
      ensures Valid()
      ensures entries[OperatorField] == "" ==>
                reports == old(reports) && messages == old(messages) + [ErrorBox(FillOperatorText)]
      ensures entries[OperatorField] != "" ==>
                && reports == old(reports) + [ReportOf(entries, results)]
                && messages == old(messages) + [InfoBox(ReportDoneText + reportPath)]
      ensures State() == AfterReport(entries, reportPath, old(State()))
    {
      if entries[OperatorField] == "" {
        messages := messages + [ErrorBox(FillOperatorText)];
        return;
      }
      reports := reports + [ReportOf(entries, results)];
      messages := messages + [InfoBox(ReportDoneText + reportPath)];
    }
  }
}

/**
 * Runs of test 2 on a bench whose fields are filled and whose port is open
 * with nothing queued: one where the device answers "STATUS OK", one where
 * it stays silent.
 */
module BenchScenarios {
  import opened Wrappers
  import opened Text
  import opened Protocol
  import opened Serial
  import opened Bench

  /** The reply "STATUS OK" has no whitespace at its ends and is a pass. */
  lemma StatusOkPasses(reply: string)
    requires reply == "STATUS OK"
    ensures Trimmed(reply) && Classify(reply) == Ok
  {
    MissingFirstChar(reply, "ERROR");
    OkUnlessError("STATUS ", "");
    assert "STATUS " + "OK" + "" == reply;
  }

  /** A bench whose six fields are filled and whose port is open with nothing queued. */
  method OpenBench() returns (bench: TestBench)
    ensures bench.Valid() && AllFilled(bench.entries) && bench.serial.Connected()
    ensures bench.results == seq(SlotCount, _ => Placeholder) && bench.reports == []
    ensures bench.serial.connection.written == [] && bench.serial.connection.incoming == []
    ensures fresh(bench) && fresh(bench.serial.connection)
  {
    bench := new TestBench("11.11.2024");
    bench.SetEntry(OperatorField, "Иванов И. И.");
    bench.SetEntry(ObjectField, "ПС-110");
    bench.SetEntry(BlockField, "7");
    bench.SetEntry(PlaceField, "Цех 1");
    bench.SetEntry(ConnectionField, "Ввод 1");
    bench.SelectPort("/dev/ttyUSB0");
    bench.ToggleConnection(true);
  }

  /** The device answers test `n` with a passing reply: slot `n` passes and the report says success. */
  method PassingRun(bench: TestBench, n: nat, reply: string)
    requires n < SlotCount
    requires Trimmed(reply) && reply != "" && Classify(reply) == Ok
    requires bench.Valid() && AllFilled(bench.entries) && bench.serial.Connected()
    requires bench.serial.connection.incoming == []
    modifies bench, bench.serial.connection
    ensures bench.Valid() && AllFilled(bench.entries) && bench.serial.Connected()
    ensures bench.serial.connection == old(bench.serial.connection)
    ensures bench.serial.connection.written == old(bench.serial.connection.written) + [CommandLine(n) + "\n"]
    ensures bench.serial.connection.incoming == []
    ensures bench.results[n] == SuccessLabel && bench.indicators[n] == Green
    ensures |bench.reports| == |old(bench.reports)| + 1 && bench.reports[|bench.reports| - 1].status == Success
  {
    ghost var s0 := bench.State();
    QueuedReply(s0.link.value, reply);
    StripTrimmed(reply);
    PassingReplyReported(n, [reply], "report.pdf", bench.entries, s0);
    bench.StartTest(n, [reply], false, Clean, None, "report.pdf");
  }

  /** A reply queued on an open, empty port is the next line read, and the queue is then empty. */
  lemma QueuedReply(l: Link, reply: string)
    requires l.isOpen && l.incoming == []
    ensures NextLine(Waited(l, [reply])) == reply && AfterLine(Waited(l, [reply])) == []
  {
    assert Waited(l, [reply]) == [reply];
  }

  /** The device does not answer: no slot changes and no report is produced. */
  method SilentRun(bench: TestBench, n: nat)
    requires n < SlotCount
    requires bench.Valid() && AllFilled(bench.entries) && bench.serial.Connected()
    requires bench.serial.connection.incoming == []
    modifies bench, bench.serial.connection
    ensures bench.Valid() && bench.serial.Connected()
    ensures bench.serial.connection.written == old(bench.serial.connection.written) + [CommandLine(n) + "\n"]
    ensures bench.results == old(bench.results) && bench.indicators == old(bench.indicators)
    ensures bench.reports == old(bench.reports)
    ensures bench.messages == old(bench.messages) + [ErrorBox(NoResponseText)]
  {
    bench.StartTest(n, [], false, Clean, None, "report.pdf");
  }

  /**
   * Test 2 answered with "STATUS OK", then test 2 unanswered: the slot keeps
   * its pass, the one report carries success, and the last message is the
   * "no response" error.
   */
  method PassThenSilence(reply: string) returns (bench: TestBench)
    requires reply == "STATUS OK"
    ensures bench.Valid() && bench.results[2] == SuccessLabel && bench.indicators[2] == Green
    ensures |bench.reports| == 1 && bench.reports[0].status == Success
    ensures AsWrittenVerdict(bench.results) == Failure
    ensures bench.serial.connection != null
    ensures bench.serial.connection.written == [CommandLine(2) + "\n", CommandLine(2) + "\n"]
    ensures |bench.messages| > 0 && bench.messages[|bench.messages| - 1] == ErrorBox(NoResponseText)
  {
    bench := OpenBench();
    StatusOkPasses(reply);
    PassingRun(bench, 2, reply);
    SilentRun(bench, 2);
    AsWrittenVerdictAlwaysFails(bench.results);
  }
}
