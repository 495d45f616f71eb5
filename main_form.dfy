/** The terminal's main window (Terminal/MainForm.cs): a single-slot buffer
    between the port's receive callback and a 25 ms display timer, a 1000 ms
    timer that replays a log file to the port one line per tick, and the
    Open/Close, Send and Replay buttons. Each event handler is one atomic step. */
module Terminal {
  import opened NetStrings
  import Port = SerialRxTx

  datatype Option<T> = None | Some(value: T)

  // ---------------------------------------------------------------------------
  // The receive buffer: `_dataReady` and `_receivedData`
  // ---------------------------------------------------------------------------

  /** The single-slot buffer: a flag and the message it guards. */
  datatype Mailbox = Mailbox(dataReady: bool, receivedData: string)

  const EMPTY_MAILBOX := Mailbox(false, "")

  /** The messages waiting in the slot: none or one. */
  function Pending(m: Mailbox): (r: seq<string>)
    ensures |r| <= 1
  {
    if m.dataReady then [m.receivedData] else []
  }

  /** `ReceiveDataHandler(data)`: an empty slot takes the message; a full slot keeps
      the message it holds, and the incoming one is thrown away. */
  function Receive(m: Mailbox, data: string): (r: Mailbox)
    ensures r.dataReady
    ensures Pending(r) == if m.dataReady then Pending(m) else [data]
  {
    if m.dataReady then m else Mailbox(true, data)
  }

  /** The slot after a display tick, and the message the tick shows, if any. */
  datatype Drained = Drained(mailbox: Mailbox, shown: Option<string>)

  /** `ReceivedDataTimerTick`: a full slot is emptied and its message shown; an empty
      slot is left alone and nothing is shown. */
  function Drain(m: Mailbox): (r: Drained)
    ensures Pending(r.mailbox) == []
    ensures r.shown == if m.dataReady then Some(m.receivedData) else None
  {
    if !m.dataReady then Drained(m, None) else Drained(m.(dataReady := false), Some(m.receivedData))
  }

  /** The text an optional string stands for, with nothing as the empty text; in C#,
      appending a null string appends nothing (`null + "\r\n"` is `"\r\n"`). */
  function OrEmpty(o: Option<string>): string
  {
    if o.Some? then o.value else ""
  }

  /** The events that touch the slot: a line handed to the receive callback, or a display tick. */
  datatype MailboxEvent = Arrive(data: string) | Tick

  /** The slot after a run of events, the messages shown in order, and the messages dropped in order. */
  datatype MailboxRun = MailboxRun(mailbox: Mailbox, shown: seq<string>, dropped: seq<string>)

  /** A run of events from slot `m`: no more messages are dropped than arrive, and a
      run that ends with a tick leaves the slot empty. */
  function RunMailbox(m: Mailbox, events: seq<MailboxEvent>): (r: MailboxRun)
    ensures |r.dropped| <= |Arrivals(events)|
    ensures events != [] && events[|events| - 1] == Tick ==> !r.mailbox.dataReady
    decreases |events|
  {
    if events == [] then MailboxRun(m, [], [])
    else
      var before := RunMailbox(m, events[..|events| - 1]);
      match events[|events| - 1]
      case Arrive(data) =>
        if before.mailbox.dataReady then before.(dropped := before.dropped + [data])
        else before.(mailbox := Receive(before.mailbox, data))
      case Tick =>
        var d := Drain(before.mailbox);
        MailboxRun(d.mailbox, before.shown + (if d.shown.Some? then [d.shown.value] else []), before.dropped)
  }

  /** The messages that arrive during a run of events, in order. */
  function Arrivals(events: seq<MailboxEvent>): seq<string>
    decreases |events|
  {
    if events == [] then []
    else
      var last := events[|events| - 1];
      Arrivals(events[..|events| - 1]) + (if last.Arrive? then [last.data] else [])
  }

  /** `c` is an interleaving of `a` and `b`: it holds all their elements, each list's in its own order. */
  ghost predicate Interleaving(a: seq<string>, b: seq<string>, c: seq<string>)
    decreases |c|
  {
    if c == [] then a == [] && b == []
    else
      var x := c[|c| - 1];
      || (|a| > 0 && a[|a| - 1] == x && Interleaving(a[..|a| - 1], b, c[..|c| - 1]))
      || (|b| > 0 && b[|b| - 1] == x && Interleaving(a, b[..|b| - 1], c[..|c| - 1]))
  }

  lemma {:induction false} InterleavingLength(a: seq<string>, b: seq<string>, c: seq<string>)
    requires Interleaving(a, b, c)
    ensures |c| == |a| + |b|
    decreases |c|
  {
    if c != [] {
      var x := c[|c| - 1];
      if |a| > 0 && a[|a| - 1] == x && Interleaving(a[..|a| - 1], b, c[..|c| - 1]) {
        InterleavingLength(a[..|a| - 1], b, c[..|c| - 1]);
      } else {
        InterleavingLength(a, b[..|b| - 1], c[..|c| - 1]);
      }
    }
  }

  lemma InterleavingTakeLeft(a: seq<string>, b: seq<string>, c: seq<string>, x: string)
    requires Interleaving(a, b, c)
    ensures Interleaving(a + [x], b, c + [x])
  {
    assert (a + [x])[..|a|] == a && (c + [x])[..|c|] == c;
  }

  lemma InterleavingTakeRight(a: seq<string>, b: seq<string>, c: seq<string>, x: string)
    requires Interleaving(a, b, c)
    ensures Interleaving(a, b + [x], c + [x])
  {
    assert (b + [x])[..|b|] == b && (c + [x])[..|c|] == c;
  }

  /** Every message is shown exactly once or dropped: the messages shown, followed by
      the one still waiting, and the messages dropped, interleave to exactly the
      messages that were waiting or arrived, each in its order of arrival. */
  lemma {:induction false} MailboxAccountsForEveryMessage(m: Mailbox, events: seq<MailboxEvent>)
    ensures var run := RunMailbox(m, events);
            Interleaving(run.shown + Pending(run.mailbox), run.dropped, Pending(m) + Arrivals(events))
    decreases |events|
  {
    if events == [] {
      assert Pending(m) + [] == Pending(m);
      InterleavingOfOne(Pending(m));
    } else {
      var front := events[..|events| - 1];
      MailboxAccountsForEveryMessage(m, front);
      var before := RunMailbox(m, front);
      var a := before.shown + Pending(before.mailbox);
      var c := Pending(m) + Arrivals(front);
      var last := events[|events| - 1];
      if last.Arrive? {
        assert Pending(m) + Arrivals(events) == c + [last.data];
        if before.mailbox.dataReady {
          InterleavingTakeRight(a, before.dropped, c, last.data);
        } else {
          assert RunMailbox(m, events).shown + Pending(RunMailbox(m, events).mailbox) == a + [last.data];
          InterleavingTakeLeft(a, before.dropped, c, last.data);
        }
      } else {
        assert Arrivals(events) == Arrivals(front);
        assert RunMailbox(m, events).shown + Pending(RunMailbox(m, events).mailbox) == a;
      }
    }
  }

  lemma InterleavingOfOne(a: seq<string>)
    requires |a| <= 1
    ensures Interleaving(a, [], a)
  {
    if |a| == 1 {
      assert a[..0] == [];
    }
  }

  /** Counting form: all arrivals (and a message waiting at the start) are accounted for
      by the messages shown, the messages dropped, and at most one still waiting. */
  lemma MailboxCounts(m: Mailbox, events: seq<MailboxEvent>)
    ensures var run := RunMailbox(m, events);
            |Pending(m)| + |Arrivals(events)| == |run.shown| + |run.dropped| + |Pending(run.mailbox)|
  {
    var run := RunMailbox(m, events);
    MailboxAccountsForEveryMessage(m, events);
    InterleavingLength(run.shown + Pending(run.mailbox), run.dropped, Pending(m) + Arrivals(events));
  }

  /** A message put into an empty slot is shown by the next tick, and the tick after
      that shows nothing. */
  lemma ReceiveThenTwoTicks(data: string)
    ensures RunMailbox(EMPTY_MAILBOX, [Arrive(data), Tick]).shown == [data]
    ensures RunMailbox(EMPTY_MAILBOX, [Arrive(data), Tick, Tick]).shown == [data]
  {
    var once := [Arrive(data), Tick];
    var twice := [Arrive(data), Tick, Tick];
    assert once[..1] == [Arrive(data)] && once[..1][..0] == [];
    assert RunMailbox(EMPTY_MAILBOX, []) == MailboxRun(EMPTY_MAILBOX, [], []);
    assert RunMailbox(EMPTY_MAILBOX, [Arrive(data)]) == MailboxRun(Mailbox(true, data), [], []);
    assert RunMailbox(EMPTY_MAILBOX, once) == MailboxRun(Mailbox(false, data), [data], []);
    assert twice[..2] == once;
    assert RunMailbox(EMPTY_MAILBOX, twice) == MailboxRun(Mailbox(false, data), [data], []);
  }

  /** Two arrivals with no tick between them: the FIRST message is shown and the
      second one dropped. */
  lemma SecondArrivalIsDropped(first: string, second: string)
    ensures var run := RunMailbox(EMPTY_MAILBOX, [Arrive(first), Arrive(second), Tick]);
            run.shown == [first] && run.dropped == [second] && Pending(run.mailbox) == []
  {
    var events := [Arrive(first), Arrive(second), Tick];
    assert events[..2] == [Arrive(first), Arrive(second)];
    assert events[..2][..1] == [Arrive(first)] && events[..2][..1][..0] == [];
    assert RunMailbox(EMPTY_MAILBOX, events[..2][..1]) == MailboxRun(Mailbox(true, first), [], []);
    assert RunMailbox(EMPTY_MAILBOX, events[..2]) == MailboxRun(Mailbox(true, first), [], [second]);
    assert RunMailbox(EMPTY_MAILBOX, events) == MailboxRun(Mailbox(false, first), [first], [second]);
  }

  // ---------------------------------------------------------------------------
  // The replay file: `_file`, a StreamReader over a sequence of lines
  // ---------------------------------------------------------------------------

  /** An open replay file: its lines and the index of the line `ReadLine` returns next. */
  datatype LineFile = LineFile(lines: seq<string>, cursor: nat)

  /** What `ReadLine` returns (`None` standing for null at the end of the stream)
      and the file after it. */
  datatype LineRead = LineRead(line: Option<string>, file: LineFile)

  function ReadLine(f: LineFile): (r: LineRead)
    requires f.cursor <= |f.lines|
    ensures r.file.lines == f.lines && r.file.cursor <= |f.lines|
    ensures f.cursor < |f.lines| ==> r.line == Some(f.lines[f.cursor]) && r.file.cursor == f.cursor + 1
    ensures f.cursor == |f.lines| ==> r.line == None && r.file == f
  {
    if f.cursor < |f.lines| then LineRead(Some(f.lines[f.cursor]), f.(cursor := f.cursor + 1))
    else LineRead(None, f)
  }

  predicate EndOfStream(f: LineFile)
  {
    f.cursor >= |f.lines|
  }

  /** `BaseStream.Seek(0, 0)`: back to the first line. */
  function Rewind(f: LineFile): LineFile
  {
    f.(cursor := 0)
  }

  /** The file after one replay tick, and the text the tick sends, if any. */
  datatype ReplayTick = ReplayTick(file: LineFile, sent: Option<string>)

  /** One replay tick on an open file: the line at the cursor is read, and sent with
      "\r\n" only if another line follows it; otherwise the file is rewound and
      nothing is sent. The cursor stays before the last line, or at 0. */
  function ReplayStep(f: LineFile): (r: ReplayTick)
    requires f.cursor <= |f.lines|
    ensures r.file.lines == f.lines
    ensures r.file.cursor < |f.lines| || r.file.cursor == 0
    ensures f.cursor + 1 < |f.lines| ==> r.sent == Some(f.lines[f.cursor] + Port.CRLF) && r.file.cursor == f.cursor + 1
    ensures f.cursor + 1 >= |f.lines| ==> r.sent == None && r.file.cursor == 0
  {
    var read := ReadLine(f);
    if !EndOfStream(read.file) then ReplayTick(read.file, Some(OrEmpty(read.line) + Port.CRLF))
    else ReplayTick(Rewind(read.file), None)
  }

  /** The file after `k` replay ticks and the texts sent, in order. */
  datatype Replayed = Replayed(file: LineFile, sent: seq<string>)

  function RunReplay(f: LineFile, k: nat): (r: Replayed)
    requires f.cursor <= |f.lines|
    ensures r.file.lines == f.lines && r.file.cursor <= |f.lines|
    decreases k
  {
    if k == 0 then Replayed(f, [])
    else
      var step := ReplayStep(f);
      var rest := RunReplay(step.file, k - 1);
      Replayed(rest.file, (if step.sent.Some? then [step.sent.value] else []) + rest.sent)
  }

  /** Each line followed by "\r\n". */
  function Framed(lines: seq<string>): (r: seq<string>)
    ensures |r| == |lines|
    ensures forall i :: 0 <= i < |lines| ==> r[i] == lines[i] + Port.CRLF
  {
    seq(|lines|, i requires 0 <= i < |lines| => lines[i] + Port.CRLF)
  }

  /** `k` copies of `s`, one after the other. */
  function Repeat(s: seq<string>, k: nat): seq<string>
    decreases k
  {
    if k == 0 then [] else s + Repeat(s, k - 1)
  }

  /** Ticking from line `c` to the end of the file sends lines `c` up to, but not
      including, the last one, and leaves the file rewound. */
  lemma {:induction false} ReplayFinishesPass(lines: seq<string>, c: nat)
    requires c < |lines|
    ensures RunReplay(LineFile(lines, c), |lines| - c) ==
            Replayed(LineFile(lines, 0), Framed(lines[c..|lines| - 1]))
    decreases |lines| - c
  {
    var n := |lines|;
    var step := ReplayStep(LineFile(lines, c));
    if c + 1 < n {
      ReplayFinishesPass(lines, c + 1);
      assert lines[c..n - 1] == [lines[c]] + lines[c + 1..n - 1];
      assert Framed(lines[c..n - 1]) == [lines[c] + Port.CRLF] + Framed(lines[c + 1..n - 1]);
    } else {
      assert RunReplay(step.file, 0) == Replayed(LineFile(lines, 0), []);
      assert Framed(lines[c..n - 1]) == [];
    }
  }

  /** One full pass of `n` ticks from the start sends the first `n - 1` lines in order,
      never the last, and ends rewound. */
  lemma ReplayPass(lines: seq<string>)
    requires |lines| > 0
    ensures RunReplay(LineFile(lines, 0), |lines|) == Replayed(LineFile(lines, 0), Framed(lines[..|lines| - 1]))
  {
    ReplayFinishesPass(lines, 0);
    assert lines[0..|lines| - 1] == lines[..|lines| - 1];
  }

  /** Running `a` ticks and then `b` more is running `a + b` ticks. */
  lemma {:induction false} RunReplayAdditive(f: LineFile, a: nat, b: nat)
    requires f.cursor <= |f.lines|
    ensures var first := RunReplay(f, a);
            RunReplay(f, a + b) == Replayed(RunReplay(first.file, b).file, first.sent + RunReplay(first.file, b).sent)
    decreases a
  {
    if a > 0 {
      var step := ReplayStep(f);
      RunReplayAdditive(step.file, a - 1, b);
      var sent := if step.sent.Some? then [step.sent.value] else [];
      var first := RunReplay(step.file, a - 1);
      assert sent + (first.sent + RunReplay(first.file, b).sent) == (sent + first.sent) + RunReplay(first.file, b).sent;
    } else {
      assert [] + RunReplay(f, b).sent == RunReplay(f, b).sent;
    }
  }

  /** Replay loops forever: `q` full passes send the first `n - 1` lines `q` times over. */
  lemma {:induction false} ReplayRepeats(lines: seq<string>, q: nat)
    requires |lines| > 0
    ensures RunReplay(LineFile(lines, 0), q * |lines|) ==
            Replayed(LineFile(lines, 0), Repeat(Framed(lines[..|lines| - 1]), q))
    decreases q
  {
    if q > 0 {
      var f := LineFile(lines, 0);
      var pass := Framed(lines[..|lines| - 1]);
      assert q * |lines| == |lines| + (q - 1) * |lines|;
      RunReplayAdditive(f, |lines|, (q - 1) * |lines|);
      ReplayPass(lines);
      ReplayRepeats(lines, q - 1);
      assert Repeat(pass, q) == pass + Repeat(pass, q - 1);
    }
  }

  /** Every text in `sent` is one of the lines before the last, followed by "\r\n". */
  ghost predicate SendsOnlyEarlierLines(lines: seq<string>, sent: seq<string>)
  {
    forall j :: 0 <= j < |sent| ==> exists i :: 0 <= i < |lines| - 1 && sent[j] == lines[i] + Port.CRLF
  }

  /** However many ticks run, from wherever the cursor is, the last line of the file is
      never sent: every text sent is some earlier line followed by "\r\n". */
  lemma {:induction false} LastLineNeverSent(f: LineFile, k: nat)
    requires f.cursor <= |f.lines|
    ensures SendsOnlyEarlierLines(f.lines, RunReplay(f, k).sent)
    decreases k
  {
    if k > 0 {
      var step := ReplayStep(f);
      LastLineNeverSent(step.file, k - 1);
      var head := if step.sent.Some? then [step.sent.value] else [];
      var rest := RunReplay(step.file, k - 1).sent;
      var sent := RunReplay(f, k).sent;
      assert sent == head + rest;
      assert step.file.lines == f.lines;
      forall j | 0 <= j < |sent|
        ensures exists i :: 0 <= i < |f.lines| - 1 && sent[j] == f.lines[i] + Port.CRLF
      {
        if j < |head| {
          var i := f.cursor;
          assert 0 <= i < |f.lines| - 1 && sent[j] == f.lines[i] + Port.CRLF;
        } else {
          assert sent[j] == rest[j - |head|];
          assert exists i :: 0 <= i < |step.file.lines| - 1 && rest[j - |head|] == step.file.lines[i] + Port.CRLF;
        }
      }
      assert SendsOnlyEarlierLines(f.lines, sent);
    }
  }

  /** A file of at most one line sends nothing, ever. */
  lemma {:induction false} ShortFileSendsNothing(f: LineFile, k: nat)
    requires |f.lines| <= 1 && f.cursor <= |f.lines|
    ensures RunReplay(f, k).sent == []
    decreases k
  {
    if k > 0 {
      var step := ReplayStep(f);
      assert step.sent == None;
      ShortFileSendsNothing(step.file, k - 1);
      assert RunReplay(f, k).sent == [] + RunReplay(step.file, k - 1).sent;
    }
  }

  // ---------------------------------------------------------------------------
  // The window
  // ---------------------------------------------------------------------------

  const OPEN_PORT_LABEL := "Open COM Port"
  const CLOSE_PORT_LABEL := "Close COM Port"
  const REPLAY_LABEL := "Replay Log"
  const STOP_REPLAY_LABEL := "Stop Replay Log"
  const OPEN_PORT_FIRST := "Open COM port first\r\n"
  const REPLAYING_PREFIX := "Replaying to COM port: "

  /** The fixed settings the Open button passes. */
  const DATA_BITS := "8"
  const PARITY := "None"
  const STOP_BITS := "One"

  /** The window's `ReceiveDataHandler`, as registered with the port. */
  const RECEIVE_DATA_HANDLER: Port.Callback := 0

  /** The Open button's settings: with an open-able name and baud rate, the port gets
      8 data bits, no parity and one stop bit, and opens exactly when the device does. */
  lemma TerminalOpenSettings(p: Port.SerialPort, portName: string, baudRate: string, outcome: Port.OpenOutcome)
    requires !p.isOpen && Port.IsValidPortName(TrimEnd(portName)) && Port.IsBaudRate(baudRate)
    ensures var r := Port.OpenSpec(p, portName, baudRate, DATA_BITS, PARITY, STOP_BITS, outcome);
            && r.port.dataBits == 8 && r.port.parity == Port.Parity.None && r.port.stopBits == Port.StopBits.One
            && (r.port.isOpen <==> outcome == Port.PortOpened)
  {
    ToInt32Eight();
    assert Port.Accepted(portName, baudRate, DATA_BITS);
  }

  /** A chosen log file: its name and its lines. */
  datatype FileChoice = FileChoice(fileName: string, lines: seq<string>)

  class MainForm {
    const serialPort: Port.SerialComPort
    var receivedData: string
    var dataReady: bool
    var file: Option<LineFile>
    /** `tbDataWindow.Text` */
    var dataWindow: string
    /** `bOpenComPort.Text` */
    var openComPortText: string
    /** `bReplayLog.Text` */
    var replayLogText: string

    ghost predicate Valid()
      reads this, serialPort
    {
      && serialPort.onMessageReceived == [RECEIVE_DATA_HANDLER]
      && (openComPortText == OPEN_PORT_LABEL || openComPortText == CLOSE_PORT_LABEL)
      && (replayLogText == REPLAY_LABEL || replayLogText == STOP_REPLAY_LABEL)
      && (file.Some? ==> replayLogText == STOP_REPLAY_LABEL)
      && (file.Some? ==> file.value.cursor < |file.value.lines| || file.value.cursor == 0)
    }

    function Slot(): Mailbox
      reads this
    {
      Mailbox(dataReady, receivedData)
    }

    /** The buttons start with the labels "Open COM Port" and "Replay Log", the
        window empty, and the window's handler registered with a new port. */
    constructor()
      ensures Valid() && fresh(serialPort)
      ensures serialPort.comPort == Port.DEFAULT_PORT && serialPort.written == []
      ensures Slot() == EMPTY_MAILBOX && file == None && dataWindow == ""
      ensures openComPortText == OPEN_PORT_LABEL && replayLogText == REPLAY_LABEL
    {
      var port := new Port.SerialComPort();
      port.RegisterReceiveCallback(RECEIVE_DATA_HANDLER);
      serialPort := port;
      receivedData := "";
      dataReady := false;
      file := None;
      dataWindow := "";
      openComPortText := OPEN_PORT_LABEL;
      replayLogText := REPLAY_LABEL;
    }

    method ReceiveDataHandler(data: string)
      modifies this`dataReady, this`receivedData
      ensures Slot() == Receive(old(Slot()), data)
    {
      if dataReady {
        // the incoming message is thrown away
      } else {
        dataReady := true;
        receivedData := data;
      }
    }

    method UpdateDataWindow(message: string)
      modifies this`dataWindow
      ensures dataWindow == old(dataWindow) + message
    {
      dataWindow := dataWindow + message;
    }

    method ReceivedDataTimerTick()
      modifies this`dataReady, this`dataWindow
      ensures var d := Drain(old(Slot()));
              Slot() == d.mailbox && dataWindow == old(dataWindow) + OrEmpty(d.shown)
    {
      if !dataReady {
        return;
      }
      dataReady := false;
      UpdateDataWindow(receivedData);
    }

    /** One run of the port's `DataReceivedHandler`, delivering to this window's handler. */
    method ComPortDataReceived(read: Port.ReadOutcome)
      requires Valid()
      modifies this`dataReady, this`receivedData
      ensures Valid()
      ensures Slot() == if serialPort.comPort.isOpen && read.LineRead?
                        then Receive(old(Slot()), read.line + "\n") else old(Slot())
    {
      var invoked := serialPort.DataReceivedHandler(read);
      if invoked != [] {
        ReceiveDataHandler(invoked[0].message);
      }
    }

    method ReplayLogTimerTick(write: Port.WriteOutcome)
      requires Valid()
      modifies this`file, serialPort`written
      ensures Valid()
      ensures old(file) == None ==> file == None && serialPort.written == old(serialPort.written)
      ensures old(file).Some? ==>
                var step := ReplayStep(old(file).value);
                && file == Some(step.file)
                && serialPort.written ==
                   old(serialPort.written) +
                   (if step.sent.Some? && serialPort.comPort.isOpen && write == Port.WriteDone
                    then [step.sent.value] else [])
    {
      if file == None {
        return;
      }
      var read := ReadLine(file.value);
      file := Some(read.file);
      if !EndOfStream(file.value) {
        serialPort.SendLine(OrEmpty(read.line) + Port.CRLF, write);
      } else {
        file := Some(Rewind(file.value));  // start over reading the file
      }
    }

    method OpenComPortClick(portNameText: string, baudRateText: string,
                            open: Port.OpenOutcome, close: Port.CloseOutcome)
      requires Valid()
      modifies this`openComPortText, this`dataWindow, serialPort`comPort
      ensures Valid()
      ensures old(openComPortText) == OPEN_PORT_LABEL ==>
                var r := Port.OpenSpec(old(serialPort.comPort), portNameText, baudRateText,
                                       DATA_BITS, PARITY, STOP_BITS, open);
                && serialPort.comPort == r.port
                && dataWindow == old(dataWindow) + r.status
                && openComPortText == if Contains(r.status, "Opened") then CLOSE_PORT_LABEL else OPEN_PORT_LABEL
      ensures old(openComPortText) != OPEN_PORT_LABEL ==>
                var r := Port.CloseSpec(old(serialPort.comPort), close);
                && serialPort.comPort == r.port
                && dataWindow == old(dataWindow) + r.status
                && openComPortText == OPEN_PORT_LABEL
    {
      var status;
      if openComPortText == OPEN_PORT_LABEL {
        status := serialPort.Open(portNameText, baudRateText, DATA_BITS, PARITY, STOP_BITS, open);
        if Contains(status, "Opened") {
          openComPortText := CLOSE_PORT_LABEL;
        }
      } else {
        status := serialPort.Close(close);
        openComPortText := OPEN_PORT_LABEL;
      }
      UpdateDataWindow(status);
    }

    method ClearRxDataClick()
      modifies this`dataWindow
      ensures dataWindow == ""
    {
      dataWindow := "";
    }

    method SendMessageClick(messageToSend: string, write: Port.WriteOutcome)
      requires Valid()
      modifies this`dataWindow, serialPort`written
      ensures Valid()
      ensures old(serialPort.comPort.isOpen) ==>
                && serialPort.written ==
                   old(serialPort.written) + (if write == Port.WriteDone then [messageToSend + Port.CRLF] else [])
                && dataWindow == old(dataWindow) + (messageToSend + Port.CRLF)
      ensures !old(serialPort.comPort.isOpen) ==>
                serialPort.written == old(serialPort.written) && dataWindow == old(dataWindow) + OPEN_PORT_FIRST
    {
      var open := serialPort.IsOpen();
      if open {
        var message := messageToSend + Port.CRLF;
        serialPort.SendLine(message, write);
        UpdateDataWindow(message);
      } else {
        UpdateDataWindow(OPEN_PORT_FIRST);
      }
    }

    /** The file dialog is abstracted to `choice`: `None` when it is cancelled. */
    method ReplayLogClick(choice: Option<FileChoice>)
      requires Valid()
      modifies this`file, this`replayLogText, this`dataWindow
      ensures Valid()
      ensures !serialPort.comPort.isOpen ==>
                file == old(file) && replayLogText == old(replayLogText) && dataWindow == old(dataWindow) + OPEN_PORT_FIRST
      ensures serialPort.comPort.isOpen && old(replayLogText) == REPLAY_LABEL && choice.Some? ==>
                && file == Some(LineFile(choice.value.lines, 0))
                && replayLogText == STOP_REPLAY_LABEL
                && dataWindow == old(dataWindow) + REPLAYING_PREFIX + choice.value.fileName + Port.CRLF
      ensures serialPort.comPort.isOpen && old(replayLogText) == REPLAY_LABEL && choice.None? ==>
                file == old(file) && replayLogText == old(replayLogText) && dataWindow == old(dataWindow)
      ensures serialPort.comPort.isOpen && old(replayLogText) != REPLAY_LABEL ==>
                && file == None
                && replayLogText == (if old(file).Some? then REPLAY_LABEL else old(replayLogText))
                && dataWindow == old(dataWindow)
    {
      var open := serialPort.IsOpen();
      if !open {
        UpdateDataWindow(OPEN_PORT_FIRST);
        return;
      }
      if replayLogText == REPLAY_LABEL {
        if choice.None? {
          return;
        }
        file := Some(LineFile(choice.value.lines, 0));
        replayLogText := STOP_REPLAY_LABEL;
        UpdateDataWindow(REPLAYING_PREFIX + choice.value.fileName + Port.CRLF);
      } else {
        if file == None {
          return;
        }
        file := None;
        replayLogText := REPLAY_LABEL;
      }
    }
  }
}
