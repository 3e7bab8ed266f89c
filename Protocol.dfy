/**
 * The pure part of the test bench's protocol (gui.py): the command frame that
 * starts one of the five tests, the classification of the device's reply, the
 * label and indicator colour each slot shows, and the report's verdict.
 */
module Protocol {
  import opened Wrappers
  import opened Text

  /** The number of tests, and so of result slots and frame tokens. */
  const SlotCount: nat := 5

  const Unused := "UNUSED"
  const Start := "START"
  const Separator := ';'

  // ---------------------------------------------------------------------------
  // Command frame
  // ---------------------------------------------------------------------------

  /** The five tokens that start test `n`: `START` at position `n`, `UNUSED` elsewhere. */
  function FrameTokens(n: nat): (tokens: seq<string>)
    requires n < SlotCount
    ensures |tokens| == SlotCount
    ensures forall k :: 0 <= k < SlotCount ==> (tokens[k] == Start <==> k == n)
    ensures forall k :: 0 <= k < SlotCount ==> tokens[k] in {Start, Unused}
  {
    seq(SlotCount, k => if k == n then Start else Unused)
  }

  /** The frame's tokens joined with `;`, without a terminator. */
  function FrameBody(n: nat): string
    requires n < SlotCount
  {
    Join(FrameTokens(n), Separator)
  }

  /** The command the test worker hands to the serial handler: the frame body and a newline. */
  function CommandLine(n: nat): string
    requires n < SlotCount
  {
    FrameBody(n) + "\n"
  }

  /**
   * Builds the command for test `n` as the worker does: a list of five `UNUSED`
   * tokens, `START` written over position `n`, the list joined with `;` and a
   * newline appended. The result is a single newline-terminated frame whose
   * tokens mark test `n` and no other.
   */
  method BuildCommand(n: nat) returns (command: string)
    requires n < SlotCount
    ensures command == CommandLine(n)
    ensures |command| > 0 && command[|command| - 1] == '\n'
    ensures DecodeFrame(command[..|command| - 1]) == Some(n)
  {
    var tokens := new string[SlotCount](_ => Unused);
    tokens[n] := Start;
    assert tokens[..] == FrameTokens(n);
    command := Join(tokens[..], Separator) + "\n";
    assert command[..|command| - 1] == FrameBody(n);
    FrameRoundTrip(n);
  }

  // ---------------------------------------------------------------------------
  // Reading a frame back (the device's side of the wire)
  // ---------------------------------------------------------------------------

  /** The position of the first `t` in `tokens`, or `|tokens|` when there is none. */
  function IndexOf(tokens: seq<string>, t: string): (i: nat)
    ensures i <= |tokens|
    ensures i < |tokens| ==> tokens[i] == t
    ensures forall k :: 0 <= k < i ==> tokens[k] != t
  {
    if tokens == [] then 0
    else if tokens[0] == t then 0
    else 1 + IndexOf(tokens[1..], t)
  }

  /** The test a frame body asks for: it must be exactly the frame of one test. */
  function DecodeFrame(body: string): (r: Option<nat>)
    ensures r.Some? ==> r.value < SlotCount
  {
    var tokens := Split(body, Separator);
    var i := IndexOf(tokens, Start);
    if i < SlotCount && tokens == FrameTokens(i) then Some(i) else None
  }

  /** Every frame the bench sends reads back as the test it was built for. */
  lemma FrameRoundTrip(n: nat)
    requires n < SlotCount
    ensures Split(FrameBody(n), Separator) == FrameTokens(n)
    ensures DecodeFrame(FrameBody(n)) == Some(n)
  {
    var tokens := FrameTokens(n);
    forall k | 0 <= k < |tokens|
      ensures Separator !in tokens[k]
    {
      assert tokens[k] == Start || tokens[k] == Unused;
    }
    SplitJoin(tokens, Separator);
    assert tokens[n] == Start;
    assert IndexOf(tokens, Start) == n;
  }

  /** A body that reads back as test `n` is exactly the frame of test `n`. */
  lemma DecodeFrameExact(body: string, n: nat)
    requires DecodeFrame(body) == Some(n)
    ensures n < SlotCount && body == FrameBody(n)
  {
    JoinSplit(body, Separator);
  }

  /** Different tests are started by different frames. */
  lemma FrameInjective(n: nat, m: nat)
    requires n < SlotCount && m < SlotCount
    requires FrameBody(n) == FrameBody(m)
    ensures n == m
  {
    FrameRoundTrip(n);
    FrameRoundTrip(m);
  }

  /**
   * The serial handler appends its own newline to the command, so the bytes on
   * the wire are the frame, an end of line, and then an empty line.
   */
  lemma WireCarriesEmptyLine(n: nat)
    requires n < SlotCount
    ensures Split(CommandLine(n) + "\n", '\n') == [FrameBody(n), "", ""]
  {
    var body := FrameBody(n);
    assert '\n' !in body by {
      FrameRoundTrip(n);
      var tokens := FrameTokens(n);
      forall k | 0 <= k < |tokens|
        ensures '\n' !in tokens[k]
      {
        assert tokens[k] == Start || tokens[k] == Unused;
      }
      JoinHasNo(tokens, Separator, '\n');
    }
    assert CommandLine(n) + "\n" == body + ['\n'] + "\n";
    SplitAfterPiece(body, '\n', "\n");
    assert "\n" == "" + ['\n'] + "";
    SplitAfterPiece("", '\n', "");
  }

  /** Joining tokens that lack a character `c` (other than the separator) yields a string that lacks `c`. */
  lemma {:induction false} JoinHasNo(tokens: seq<string>, sep: char, c: char)
    requires c != sep
    requires forall k :: 0 <= k < |tokens| ==> c !in tokens[k]
    ensures c !in Join(tokens, sep)
  {
    if |tokens| > 1 {
      JoinHasNo(tokens[1..], sep, c);
    }
  }

  // ---------------------------------------------------------------------------
  // Classifying the device's reply
  // ---------------------------------------------------------------------------

  /** What a reply means for its test. */
  datatype Outcome = Error | Ok | Unknown

  /**
   * The reply is checked for `ERROR` first and for `OK` second, each as a
   * substring: `ERROR` wins even when `OK` occurs too, and a reply with
   * neither is unknown.
   */
  function Classify(response: string): (o: Outcome)
    ensures o == Error <==> Occurs(response, "ERROR")
    ensures o == Ok <==> !Occurs(response, "ERROR") && Occurs(response, "OK")
    ensures o == Unknown <==> !Occurs(response, "ERROR") && !Occurs(response, "OK")
  {
    if Contains(response, "ERROR") then Error
    else if Contains(response, "OK") then Ok
    else Unknown
  }

  /** Whatever surrounds an `ERROR` in the reply, the test is an error. */
  lemma ErrorWins(pre: string, post: string)
    ensures Classify(pre + "ERROR" + post) == Error
  {
    assert Contains("ERROR", "ERROR");
    ContainsInContext(pre, "ERROR", post, "ERROR");
  }

  /** A reply with `OK` in it is a pass unless `ERROR` occurs somewhere in it. */
  lemma OkUnlessError(pre: string, post: string)
    ensures Classify(pre + "OK" + post) == Ok <==> !Occurs(pre + "OK" + post, "ERROR")
  {
    assert Contains("OK", "OK");
    ContainsInContext(pre, "OK", post, "OK");
  }

  // ---------------------------------------------------------------------------
  // What a result slot shows
  // ---------------------------------------------------------------------------

  datatype Colour = Gray | Red | Green | White | Default

  const Placeholder := "Поле результата для теста"
  const ErrorLabel := "Ошибка"
  const SuccessLabel := "Успех"
  const UnknownLabel := "Неизвестный результат"
  const FaultPrefix := "Ошибка: "

  /** The label a slot shows after a reply with the given outcome. */
  function Label(o: Outcome): (shown: string)
    ensures IsSlotLabel(shown) && shown != Placeholder
    ensures shown == SuccessLabel <==> o == Ok
    ensures shown == ErrorLabel <==> o == Error
    ensures shown == UnknownLabel <==> o == Unknown
  {
    match o
    case Error => ErrorLabel
    case Ok => SuccessLabel
    case Unknown => UnknownLabel
  }

  /** The indicator colour a slot shows after a reply with the given outcome. */
  function Indicator(o: Outcome): (c: Colour)
    ensures c == Green <==> o == Ok
    ensures c == Red <==> o == Error
    ensures c == Gray <==> o == Unknown
  {
    match o
    case Error => Red
    case Ok => Green
    case Unknown => Gray
  }

  /** The label a slot shows when updating its widgets raised an exception with message `e`. */
  function FaultLabel(e: string): string
  {
    FaultPrefix + e
  }

  /** The labels a result slot can ever show. */
  predicate IsSlotLabel(s: string)
  {
    || s == Placeholder || s == ErrorLabel || s == SuccessLabel || s == UnknownLabel
    || (|s| >= |FaultPrefix| && s[..|FaultPrefix|] == FaultPrefix)
  }

  /** The indicator colour that goes with a label: green for a pass, gray when unset or unknown, red otherwise. */
  function IndicatorFor(shown: string): Colour
  {
    if shown == SuccessLabel then Green
    else if shown == Placeholder || shown == UnknownLabel then Gray
    else Red
  }

  /** The label and colour set for an outcome belong together, and different outcomes show different labels. */
  lemma LabelsMatchIndicators(o: Outcome, o': Outcome)
    ensures IsSlotLabel(Label(o)) && IndicatorFor(Label(o)) == Indicator(o)
    ensures Label(o) == Label(o') ==> o == o'
    ensures Label(o) != Placeholder
  {
  }

  /** A fault label is a slot label, shows red, and differs from every other label. */
  lemma FaultLabelIsRed(e: string)
    ensures IsSlotLabel(FaultLabel(e)) && IndicatorFor(FaultLabel(e)) == Red
    ensures FaultLabel(e) !in {Placeholder, ErrorLabel, SuccessLabel, UnknownLabel}
  {
    var f := FaultLabel(e);
    assert f[..|FaultPrefix|] == FaultPrefix;
    assert f[0] == 'О' && f[6] == ':';
    assert |ErrorLabel| == 6 && |SuccessLabel| == 5;
    assert Placeholder[0] == 'П' && UnknownLabel[0] == 'Н';
  }

  // ---------------------------------------------------------------------------
  // The report's verdict
  // ---------------------------------------------------------------------------

  datatype Verdict = Success | Failure

  /**
   * The verdict as the program computes it: success when the list of slot
   * labels has an element equal to "OK". This is list membership, not a
   * substring test.
   */
  function AsWrittenVerdict(results: seq<string>): (v: Verdict)
    ensures v == Success <==> exists i :: 0 <= i < |results| && results[i] == "OK"
  {
    if "OK" in results then Success else Failure
  }

  /** No slot ever shows "OK", so the program's verdict is always failure. */
  lemma AsWrittenVerdictAlwaysFails(results: seq<string>)
    requires forall i :: 0 <= i < |results| ==> IsSlotLabel(results[i])
    ensures AsWrittenVerdict(results) == Failure
  {
  }

  /** The verdict the report is meant to carry: success when some slot shows a pass. */
  function IntendedVerdict(results: seq<string>): (v: Verdict)
    ensures v == Success <==> exists i :: 0 <= i < |results| && results[i] == SuccessLabel
  {
    if SuccessLabel in results then Success else Failure
  }

  /** With indicators that match the labels, the verdict is success exactly when some indicator is green. */
  lemma VerdictFollowsIndicators(results: seq<string>, indicators: seq<Colour>)
    requires |indicators| == |results|
    requires forall i :: 0 <= i < |results| ==> indicators[i] == IndicatorFor(results[i])
    ensures IntendedVerdict(results) == Success <==> Green in indicators
  {
    if Green in indicators {
      var i :| 0 <= i < |indicators| && indicators[i] == Green;
      assert results[i] == SuccessLabel;
    }
  }

  /** After test 2 alone passes, the program still reports failure while the intended verdict is success. */
  lemma AsWrittenVerdictMissesPass()
    ensures var results := [Placeholder, Placeholder, SuccessLabel, Placeholder, Placeholder];
            AsWrittenVerdict(results) == Failure && IntendedVerdict(results) == Success
  {
    var results := [Placeholder, Placeholder, SuccessLabel, Placeholder, Placeholder];
    assert results[2] == SuccessLabel;
    AsWrittenVerdictAlwaysFails(results);
  }
}
