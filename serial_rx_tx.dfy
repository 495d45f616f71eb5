/** `SerialComPort`: a thin wrapper around a .NET `System.IO.Ports.SerialPort`
    that opens and configures the port, writes lines to it, and hands every
    received line to a list of registered callbacks.

    The .NET port object is modelled by the record `SerialPort`, holding the
    properties the wrapper assigns or reads. What the runtime does on the far
    side of those properties (opening the device, reading a line, writing)
    is an input to the operations here: `OpenOutcome`, `ReadOutcome`,
    `WriteOutcome`, `CloseOutcome`. */
module SerialRxTx {
  import opened NetStrings

  // ---------------------------------------------------------------------------
  // The .NET port object
  // ---------------------------------------------------------------------------

  datatype Parity = None | Odd | Even | Mark | Space
  datatype StopBits = None | One | Two | OnePointFive
  datatype Handshake = None | XOnXOff | RequestToSend | RequestToSendXOnXOff

  /** The properties of the `SerialPort` object that the wrapper assigns or reads,
      plus how many times the wrapper's own `DataReceivedHandler` has been added
      to the port's `DataReceived` event. */
  datatype SerialPort = SerialPort(
    isOpen: bool,
    portName: string,
    baudRate: int,
    dataBits: int,
    parity: Parity,
    stopBits: StopBits,
    handshake: Handshake,
    dtrEnable: bool,
    readBufferSize: int,
    writeBufferSize: int,
    readTimeout: int,
    writeTimeout: int,
    dataReceivedSubscriptions: nat)

  /** A newly constructed `SerialPort`: closed, "COM1", 9600 baud, 8 data bits,
      no parity, one stop bit, no handshake, DTR off, 4096/2048 byte read/write
      buffers, infinite (-1) timeouts, no event subscriptions. */
  const DEFAULT_PORT := SerialPort(false, "COM1", 9600, 8, Parity.None, StopBits.One, Handshake.None,
                                   false, 4096, 2048, -1, -1, 0)

  /** The buffer size and timeout that `Open` always assigns. */
  const BUFFER_SIZE := 4096
  const TIMEOUT_MS := 500

  const CRLF := "\r\n"

  /** Messages of the exceptions the runtime throws on the paths modelled here.
      Their wording belongs to the runtime (they are written in short pieces only
      to keep the proofs about their characters small). */
  const SET_WHILE_OPEN_MESSAGE := "'value' cannot " + "be set while " + "the port is open."
  const EMPTY_PORT_NAME_MESSAGE := "The PortName " + "cannot be empty."
  const DEVICE_PATH_MESSAGE := "The given port " + "name starts " + "with \\\\."
  const BAUD_RATE_MESSAGE := "Positive number " + "required."
  const DATA_BITS_MESSAGE := "Argument must be " + "between 5 and 8."
  const FORMAT_MESSAGE := "Input string was " + "not in a correct " + "format."
  const OVERFLOW_MESSAGE := "Value was either " + "too large or too " + "small for an Int32."
  const RUNTIME_MESSAGES: set<string> :=
    {SET_WHILE_OPEN_MESSAGE, EMPTY_PORT_NAME_MESSAGE, DEVICE_PATH_MESSAGE,
     BAUD_RATE_MESSAGE, DATA_BITS_MESSAGE, FORMAT_MESSAGE, OVERFLOW_MESSAGE}

  /** What the runtime's `SerialPort.Open()` does once the wrapper has configured the port. */
  datatype OpenOutcome =
    | PortOpened                    // the device is open
    | OpenThrew(message: string)    // no such port, access denied, ...
    | ReturnedClosed                // returned without an exception, yet IsOpen is false

  /** What the runtime's `SerialPort.Close()` does. */
  datatype CloseOutcome = PortClosed | CloseThrew(message: string)

  /** What one call of the runtime's `SerialPort.ReadLine()` yields. */
  datatype ReadOutcome = LineRead(line: string) | ReadThrew(message: string)

  /** What one call of the runtime's `SerialPort.Write(string)` does. */
  datatype WriteOutcome = WriteDone | WriteThrew(message: string)

  /** The port after an operation, and the status text the operation returns. */
  datatype PortResult = PortResult(port: SerialPort, status: string)

  // ---------------------------------------------------------------------------
  // Settings coerced from text
  // ---------------------------------------------------------------------------

  /** The texts `Open` recognises for each setting. */
  const PARITY_TEXTS: set<string> := {"None", "Even", "Odd"}
  const STOP_BITS_TEXTS: set<string> := {"One", "Two"}

  /** The enumeration member names, as `ToString()` writes them. */
  function ParityName(p: Parity): string
  {
    match p
    case None => "None"
    case Odd => "Odd"
    case Even => "Even"
    case Mark => "Mark"
    case Space => "Space"
  }

  function StopBitsName(s: StopBits): string
  {
    match s
    case None => "None"
    case One => "One"
    case Two => "Two"
    case OnePointFive => "OnePointFive"
  }

  /** The parity after `Open`'s switch: a recognised text selects the setting of that
      name; any other text leaves the previous setting in place. */
  function ParityFromText(previous: Parity, text: string): (p: Parity)
    ensures text in PARITY_TEXTS ==> ParityName(p) == text
    ensures text !in PARITY_TEXTS ==> p == previous
  {
    if text == "None" then Parity.None
    else if text == "Even" then Parity.Even
    else if text == "Odd" then Parity.Odd
    else previous
  }

  /** The stop bits after `Open`'s switch: as for parity. */
  function StopBitsFromText(previous: StopBits, text: string): (s: StopBits)
    ensures text in STOP_BITS_TEXTS ==> StopBitsName(s) == text
    ensures text !in STOP_BITS_TEXTS ==> s == previous
  {
    if text == "One" then StopBits.One
    else if text == "Two" then StopBits.Two
    else previous
  }

  /** Naming a setting selects it, whatever the previous one was. */
  lemma SettingNamesSelect(previousParity: Parity, p: Parity, previousStopBits: StopBits, s: StopBits)
    requires ParityName(p) in PARITY_TEXTS && StopBitsName(s) in STOP_BITS_TEXTS
    ensures ParityFromText(previousParity, ParityName(p)) == p
    ensures StopBitsFromText(previousStopBits, StopBitsName(s)) == s
  {
  }

  /** Port names the `PortName` setter accepts: not empty, not a `\\` device path. */
  predicate IsValidPortName(name: string)
  {
    name != "" && !(|name| >= 2 && name[..2] == "\\\\")
  }

  function PortNameMessage(name: string): string
  {
    if name == "" then EMPTY_PORT_NAME_MESSAGE else DEVICE_PATH_MESSAGE
  }

  function ConversionMessage(c: Conversion): string
  {
    if c.OverflowFailure? then OVERFLOW_MESSAGE else FORMAT_MESSAGE
  }

  /** A baud rate text that converts and that the `BaudRate` setter accepts. */
  predicate IsBaudRate(text: string)
  {
    var c := ToInt32(text);
    c.Converted? && c.value > 0
  }

  /** A data bits text that converts and that the `DataBits` setter accepts. */
  predicate IsDataBits(text: string)
  {
    var c := ToInt32(text);
    c.Converted? && 5 <= c.value <= 8
  }

  /** Arguments with which every assignment in `Open` succeeds. */
  predicate Accepted(portName: string, baudRate: string, dataBits: string)
  {
    IsValidPortName(TrimEnd(portName)) && IsBaudRate(baudRate) && IsDataBits(dataBits)
  }

  // ---------------------------------------------------------------------------
  // Status strings
  // ---------------------------------------------------------------------------

  /** The text ends with the line break "\r\n". */
  predicate EndsWithLineBreak(s: string)
  {
    |s| >= 2 && s[|s| - 2..] == CRLF
  }

  /** "{name} Opened \r\n": starts with the port name, carries the word "Opened" the
      window tests for, and ends the line. */
  function OpenedStatus(name: string): (s: string)
    ensures name <= s && EndsWithLineBreak(s)
    ensures Contains(s, "Opened")
  {
    var s := name + " Opened " + CRLF;
    assert s[|name| + 1..|name| + 7] == "Opened";
    assert OccursAt(s, "Opened", |name| + 1);
    s
  }

  /** "{name} Open Failed \r\n": starts with the port name and ends the line; it
      carries "Opened" only if the port name itself does. */
  function OpenFailedStatus(name: string): (s: string)
    ensures name <= s && EndsWithLineBreak(s)
    ensures Contains(s, "Opened") ==> Contains(name, "Opened")
  {
    var s := name + " Open Failed " + CRLF;
    if !Contains(name, "Opened") then FailedTextLacksOpened(name); s else s
  }

  /** "{name} Closed\r\n": starts with the port name, then the word "Closed", and ends the line. */
  function ClosedStatus(name: string): (s: string)
    ensures name <= s && EndsWithLineBreak(s)
    ensures OccursAt(s, "Closed", |name| + 1)
  {
    var s := name + " Closed" + CRLF;
    assert s[|name| + 1..|name| + 7] == "Closed";
    s
  }

  lemma FailedTextLacksOpened(name: string)
    requires !Contains(name, "Opened")
    ensures !Contains(name + " Open Failed " + CRLF, "Opened")
  {
    assert !Contains("Open", "Opened");
    assert "Opened"[0] == 'O' && 'O' !in "Failed " + CRLF;
    NotContainsWithoutHead("Failed " + CRLF, "Opened");
    NotContainsAcross("Open", ' ', "Failed " + CRLF, "Opened");
    assert "Open" + [' '] + ("Failed " + CRLF) == "Open Failed " + CRLF;
    NotContainsAcross(name, ' ', "Open Failed " + CRLF, "Opened");
    assert name + [' '] + ("Open Failed " + CRLF) == name + " Open Failed " + CRLF;
  }

  // ---------------------------------------------------------------------------
  // Specification of Open and Close
  // ---------------------------------------------------------------------------

  /** `Open(portName, baudRate, dataBits, parity, stopBits)`. The assignments run in
      order and the first one that throws ends the call, returning the exception's
      message: the settings assigned before it stay assigned. */
  function OpenSpec(p: SerialPort, portName: string, baudRate: string, dataBits: string,
                    parity: string, stopBits: string, outcome: OpenOutcome): (r: PortResult)
    // on an open port the first assignment throws, and nothing changes
    ensures p.isOpen ==> r.port == p && r.status == SET_WHILE_OPEN_MESSAGE + CRLF
    // otherwise the fixed settings are made whatever the arguments
    ensures !p.isOpen ==>
              && r.port.readBufferSize == BUFFER_SIZE && r.port.writeBufferSize == BUFFER_SIZE
              && r.port.readTimeout == TIMEOUT_MS && r.port.writeTimeout == TIMEOUT_MS
              && r.port.dtrEnable && r.port.handshake == Handshake.None
    // the settings taken from the arguments, each only if every earlier assignment succeeded
    ensures r.port.portName ==
              if !p.isOpen && IsValidPortName(TrimEnd(portName)) then TrimEnd(portName) else p.portName
    ensures r.port.baudRate ==
              if !p.isOpen && IsValidPortName(TrimEnd(portName)) && IsBaudRate(baudRate)
              then ToInt32(baudRate).value else p.baudRate
    ensures !p.isOpen && Accepted(portName, baudRate, dataBits) ==>
              && r.port.dataBits == ToInt32(dataBits).value
              && r.port.parity == ParityFromText(p.parity, parity)
              && r.port.stopBits == StopBitsFromText(p.stopBits, stopBits)
    ensures !(!p.isOpen && Accepted(portName, baudRate, dataBits)) ==>
              r.port.dataBits == p.dataBits && r.port.parity == p.parity && r.port.stopBits == p.stopBits
    // the port opens only when everything was accepted and the device opened
    ensures r.port.isOpen <==> p.isOpen || (Accepted(portName, baudRate, dataBits) && outcome == PortOpened)
    // the handler is subscribed once more exactly when the runtime's Open() returned normally
    ensures r.port.dataReceivedSubscriptions ==
              p.dataReceivedSubscriptions +
              (if !p.isOpen && Accepted(portName, baudRate, dataBits) && !outcome.OpenThrew? then 1 else 0)
    // the status names the port after a normal return, and is an error message otherwise
    ensures !p.isOpen && Accepted(portName, baudRate, dataBits) && outcome == PortOpened ==>
              r.status == OpenedStatus(TrimEnd(portName))
    ensures !p.isOpen && Accepted(portName, baudRate, dataBits) && outcome == ReturnedClosed ==>
              r.status == OpenFailedStatus(TrimEnd(portName))
    ensures !p.isOpen && Accepted(portName, baudRate, dataBits) && outcome.OpenThrew? ==>
              r.status == outcome.message + CRLF
    ensures p.isOpen || !Accepted(portName, baudRate, dataBits) ==>
              exists m :: m in RUNTIME_MESSAGES && r.status == m + CRLF
  {
    if p.isOpen then PortResult(p, SET_WHILE_OPEN_MESSAGE + CRLF)
    else
      var fixed := p.(writeBufferSize := BUFFER_SIZE, readBufferSize := BUFFER_SIZE,
                      writeTimeout := TIMEOUT_MS, readTimeout := TIMEOUT_MS,
                      dtrEnable := true, handshake := Handshake.None);
      var name := TrimEnd(portName);
      if !IsValidPortName(name) then PortResult(fixed, PortNameMessage(name) + CRLF)
      else
        var named := fixed.(portName := name);
        var baud := ToInt32(baudRate);
        if !baud.Converted? then PortResult(named, ConversionMessage(baud) + CRLF)
        else if baud.value <= 0 then PortResult(named, BAUD_RATE_MESSAGE + CRLF)
        else
          var clocked := named.(baudRate := baud.value);
          var bits := ToInt32(dataBits);
          if !bits.Converted? then PortResult(clocked, ConversionMessage(bits) + CRLF)
          else if !(5 <= bits.value <= 8) then PortResult(clocked, DATA_BITS_MESSAGE + CRLF)
          else
            var configured := clocked.(dataBits := bits.value,
                                       parity := ParityFromText(clocked.parity, parity),
                                       stopBits := StopBitsFromText(clocked.stopBits, stopBits));
            var subscribed := configured.(dataReceivedSubscriptions := configured.dataReceivedSubscriptions + 1);
            match outcome
            case OpenThrew(message) => PortResult(configured, message + CRLF)
            case PortOpened => PortResult(subscribed.(isOpen := true), OpenedStatus(name))
            case ReturnedClosed => PortResult(subscribed, OpenFailedStatus(name))
  }

  /** `Close()`: closing an already closed port is a no-op, so a normal return always
      reports "{name} Closed"; the `DataReceived` subscription is never removed. */
  function CloseSpec(p: SerialPort, outcome: CloseOutcome): (r: PortResult)
    ensures r.port.dataReceivedSubscriptions == p.dataReceivedSubscriptions
    ensures outcome == PortClosed ==> !r.port.isOpen && r.status == ClosedStatus(p.portName)
    ensures outcome == PortClosed ==> r.port.(isOpen := p.isOpen) == p
    ensures outcome.CloseThrew? ==> r.port == p && r.status == outcome.message + CRLF
  {
    match outcome
    case PortClosed => PortResult(p.(isOpen := false), ClosedStatus(p.portName))
    case CloseThrew(message) => PortResult(p, message + CRLF)
  }

  // ---------------------------------------------------------------------------
  // Properties of Open and Close
  // ---------------------------------------------------------------------------

  /** No runtime message that `Open` can return contains a capital 'O', so none
      contains "Opened". */
  lemma SetWhileOpenMessageLacksO()
    ensures 'O' !in SET_WHILE_OPEN_MESSAGE + CRLF
  {
  }

  lemma EmptyPortNameMessageLacksO()
    ensures 'O' !in EMPTY_PORT_NAME_MESSAGE + CRLF
  {
  }

  lemma DevicePathMessageLacksO()
    ensures 'O' !in DEVICE_PATH_MESSAGE + CRLF
  {
  }

  lemma BaudRateMessageLacksO()
    ensures 'O' !in BAUD_RATE_MESSAGE + CRLF
  {
  }

  lemma DataBitsMessageLacksO()
    ensures 'O' !in DATA_BITS_MESSAGE + CRLF
  {
  }

  lemma FormatMessageLacksO()
    ensures 'O' !in FORMAT_MESSAGE + CRLF
  {
  }

  lemma OverflowMessageLacksO()
    ensures 'O' !in OVERFLOW_MESSAGE + CRLF
  {
  }

  lemma ErrorMessagesLackOpened(message: string)
    requires message in RUNTIME_MESSAGES
    ensures !Contains(message + CRLF, "Opened")
  {
    SetWhileOpenMessageLacksO();
    EmptyPortNameMessageLacksO();
    DevicePathMessageLacksO();
    BaudRateMessageLacksO();
    DataBitsMessageLacksO();
    FormatMessageLacksO();
    OverflowMessageLacksO();
    assert "Opened"[0] == 'O';
    NotContainsWithoutHead(message + CRLF, "Opened");
  }

  lemma ThrownStatusLacksOpened(message: string)
    requires !Contains(message, "Opened")
    ensures !Contains(message + CRLF, "Opened")
  {
    assert !Contains("\n", "Opened");
    NotContainsAcross(message, '\r', "\n", "Opened");
    assert message + ['\r'] + "\n" == message + CRLF;
  }

  /** The caller's success test, `status.Contains("Opened")`, holds exactly when this
      call opened the port, provided neither the port name nor the runtime's exception
      message contains "Opened" themselves. */
  lemma OpenStatusSignalsSuccess(p: SerialPort, portName: string, baudRate: string, dataBits: string,
                                 parity: string, stopBits: string, outcome: OpenOutcome)
    requires !Contains(TrimEnd(portName), "Opened")
    requires outcome.OpenThrew? ==> !Contains(outcome.message, "Opened")
    ensures var r := OpenSpec(p, portName, baudRate, dataBits, parity, stopBits, outcome);
            Contains(r.status, "Opened") <==> !p.isOpen && r.port.isOpen
  {
    var r := OpenSpec(p, portName, baudRate, dataBits, parity, stopBits, outcome);
    var name := TrimEnd(portName);
    if p.isOpen || !Accepted(portName, baudRate, dataBits) {
      var m :| m in RUNTIME_MESSAGES && r.status == m + CRLF;
      ErrorMessagesLackOpened(m);
    } else {
      match outcome
      case PortOpened =>
      case ReturnedClosed =>
      case OpenThrew(message) =>
        ThrownStatusLacksOpened(message);
    }
  }

  /** Without the proviso the success test can be fooled: a port named "Opened" that
      does not exist fails to open, yet its status contains "Opened". */
  lemma PortNameCanFakeSuccess()
    ensures var r := OpenSpec(DEFAULT_PORT, "Opened", "9600", "8", "None", "One", ReturnedClosed);
            !r.port.isOpen && Contains(r.status, "Opened")
  {
    ToInt32Eight();
    ToInt32Baud9600();
    assert TrimEnd("Opened") == "Opened" by {
      assert !IsWhiteSpace("Opened"[5]);
    }
    assert IsValidPortName("Opened") by {
      assert "Opened"[..2] == "Op";
    }
    assert Contains("Opened", "Opened") by {
      assert OccursAt("Opened", "Opened", 0);
    }
    OpenedInNameFakesSuccess(DEFAULT_PORT, "Opened", "9600", "8", "None", "One");
  }

  /** The proviso on the name is needed: whenever the trimmed port name contains "Opened",
      a port that does not open still reports a status containing "Opened". */
  lemma OpenedInNameFakesSuccess(p: SerialPort, portName: string, baudRate: string, dataBits: string,
                                 parity: string, stopBits: string)
    requires !p.isOpen && Accepted(portName, baudRate, dataBits) && Contains(TrimEnd(portName), "Opened")
    ensures var r := OpenSpec(p, portName, baudRate, dataBits, parity, stopBits, ReturnedClosed);
            !r.port.isOpen && Contains(r.status, "Opened")
  {
    var name := TrimEnd(portName);
    ContainsInPrefix(name, OpenFailedStatus(name), "Opened");
  }

  /** The proviso on the exception is needed too: a message from the runtime's `Open()`
      that contains "Opened" (one quoting such a port name, say) makes the failed call
      look like success. */
  lemma OpenedInMessageFakesSuccess(p: SerialPort, portName: string, baudRate: string, dataBits: string,
                                    parity: string, stopBits: string, message: string)
    requires !p.isOpen && Accepted(portName, baudRate, dataBits) && Contains(message, "Opened")
    ensures var r := OpenSpec(p, portName, baudRate, dataBits, parity, stopBits, OpenThrew(message));
            !r.port.isOpen && Contains(r.status, "Opened")
  {
    ContainsInPrefix(message, message + CRLF, "Opened");
  }

  /** Opening and closing the port `k` times with accepted arguments. */
  ghost function OpenCloseCycles(p: SerialPort, portName: string, baudRate: string, dataBits: string,
                                 parity: string, stopBits: string, k: nat): SerialPort
    decreases k
  {
    if k == 0 then p
    else
      var afterOpen := OpenSpec(p, portName, baudRate, dataBits, parity, stopBits, PortOpened).port;
      OpenCloseCycles(CloseSpec(afterOpen, PortClosed).port, portName, baudRate, dataBits, parity, stopBits, k - 1)
  }

  /** `Close` does not undo the subscription `Open` makes: after `k` successful
      open-and-close cycles the handler is subscribed `k` more times, so each later
      `DataReceived` event runs it `k` more times. */
  lemma {:induction false} ReopeningStacksSubscriptions(p: SerialPort, portName: string, baudRate: string,
                                                        dataBits: string, parity: string, stopBits: string, k: nat)
    requires !p.isOpen && Accepted(portName, baudRate, dataBits)
    ensures var q := OpenCloseCycles(p, portName, baudRate, dataBits, parity, stopBits, k);
            !q.isOpen && q.dataReceivedSubscriptions == p.dataReceivedSubscriptions + k
    decreases k
  {
    if k > 0 {
      var afterOpen := OpenSpec(p, portName, baudRate, dataBits, parity, stopBits, PortOpened).port;
      var closed := CloseSpec(afterOpen, PortClosed).port;
      ReopeningStacksSubscriptions(closed, portName, baudRate, dataBits, parity, stopBits, k - 1);
    }
  }

  // ---------------------------------------------------------------------------
  // Receive callbacks
  // ---------------------------------------------------------------------------

  /** A registered `ReceiveCallback` delegate, identified by a number. */
  type Callback = nat

  /** One call of a callback with the message it is given. */
  datatype Invocation = Invocation(callback: Callback, message: string)

  /** `list -= f` on a multicast delegate: the list without its last occurrence of `f`,
      so one registration of `f` fewer and every other callback kept. */
  function RemoveLast(callbacks: seq<Callback>, f: Callback): (r: seq<Callback>)
    ensures multiset(r) == multiset(callbacks) - multiset{f}
    decreases |callbacks|
  {
    if callbacks == [] then []
    else
      var front := callbacks[..|callbacks| - 1];
      var last := callbacks[|callbacks| - 1];
      assert callbacks == front + [last];
      if last == f then front
      else RemoveLast(front, f) + [last]
  }

  /** Removing a callback that is not registered leaves the list alone. */
  lemma {:induction false} RemoveLastAbsent(callbacks: seq<Callback>, f: Callback)
    requires f !in callbacks
    ensures RemoveLast(callbacks, f) == callbacks
    decreases |callbacks|
  {
    if callbacks != [] {
      var front := callbacks[..|callbacks| - 1];
      assert callbacks == front + [callbacks[|callbacks| - 1]];
      RemoveLastAbsent(front, f);
    }
  }

  /** Slicing a list with one element appended, at an index inside the original list. */
  lemma SlicesOfAppended(front: seq<Callback>, last: Callback, i: nat)
    requires i < |front|
    ensures (front + [last])[..i] == front[..i]
    ensures (front + [last])[i + 1..] == front[i + 1..] + [last]
  {
  }

  /** The position of the last occurrence of a registered callback. */
  function LastIndex(callbacks: seq<Callback>, f: Callback): (i: nat)
    requires f in callbacks
    ensures i < |callbacks| && callbacks[i] == f && f !in callbacks[i + 1..]
    decreases |callbacks|
  {
    var n := |callbacks|;
    if callbacks[n - 1] == f then n - 1
    else
      var front := callbacks[..n - 1];
      assert callbacks == front + [callbacks[n - 1]];
      var i := LastIndex(front, f);
      SlicesOfAppended(front, callbacks[n - 1], i);
      i
  }

  /** Removing a registered callback takes out exactly its last occurrence. */
  lemma {:induction false} RemoveLastPresent(callbacks: seq<Callback>, f: Callback)
    requires f in callbacks
    ensures var i := LastIndex(callbacks, f);
            RemoveLast(callbacks, f) == callbacks[..i] + callbacks[i + 1..]
    decreases |callbacks|
  {
    var n := |callbacks|;
    var last := callbacks[n - 1];
    var front := callbacks[..n - 1];
    assert callbacks == front + [last];
    if last == f {
      assert callbacks[n..] == [];
    } else {
      RemoveLastPresent(front, f);
      SlicesOfAppended(front, last, LastIndex(front, f));
    }
  }

  /** Deregistering a callback just registered restores the list. */
  lemma DeRegisterUndoesRegister(callbacks: seq<Callback>, f: Callback)
    ensures RemoveLast(callbacks + [f], f) == callbacks
  {
    assert (callbacks + [f])[..|callbacks|] == callbacks;
  }

  // ---------------------------------------------------------------------------
  // The wrapper object
  // ---------------------------------------------------------------------------

  class SerialComPort {
    /** The runtime's port object. */
    var comPort: SerialPort
    /** The `OnMessageReceived` event: its invocation list, in registration order. */
    var onMessageReceived: seq<Callback>
    /** Every string the runtime's `Write` accepted, in order. */
    var written: seq<string>

    constructor()
      ensures comPort == DEFAULT_PORT && onMessageReceived == [] && written == []
    {
      comPort := DEFAULT_PORT;
      onMessageReceived := [];
      written := [];
    }

    method RegisterReceiveCallback(functionToCall: Callback)
      modifies this`onMessageReceived
      ensures onMessageReceived == old(onMessageReceived) + [functionToCall]
    {
      onMessageReceived := onMessageReceived + [functionToCall];
    }

    method DeRegisterReceiveCallback(functionToCall: Callback)
      modifies this`onMessageReceived
      ensures onMessageReceived == RemoveLast(old(onMessageReceived), functionToCall)
    {
      onMessageReceived := RemoveLast(onMessageReceived, functionToCall);
    }

    /** Writes the string when the port is open; a closed port or a failing write
        changes nothing, and no error reaches the caller. */
    method SendLine(aString: string, write: WriteOutcome)
      modifies this`written
      ensures written == if comPort.isOpen && write == WriteDone then old(written) + [aString]
                         else old(written)
    {
      if comPort.isOpen {
        match write
        case WriteDone => written := written + [aString];
        case WriteThrew(_) =>  // the exception is caught and logged
      }
    }

    method Open(portName: string, baudRate: string, dataBits: string, parity: string, stopBits: string,
                outcome: OpenOutcome) returns (status: string)
      modifies this`comPort
      ensures PortResult(comPort, status) ==
              OpenSpec(old(comPort), portName, baudRate, dataBits, parity, stopBits, outcome)
    {
      if comPort.isOpen {
        return SET_WHILE_OPEN_MESSAGE + CRLF;
      }
      comPort := comPort.(writeBufferSize := BUFFER_SIZE);
      comPort := comPort.(readBufferSize := BUFFER_SIZE);
      comPort := comPort.(writeTimeout := TIMEOUT_MS);
      comPort := comPort.(readTimeout := TIMEOUT_MS);
      comPort := comPort.(dtrEnable := true);
      comPort := comPort.(handshake := Handshake.None);
      var name := TrimEnd(portName);
      if !IsValidPortName(name) {
        return PortNameMessage(name) + CRLF;
      }
      comPort := comPort.(portName := name);
      var baud := ToInt32(baudRate);
      if !baud.Converted? {
        return ConversionMessage(baud) + CRLF;
      } else if baud.value <= 0 {
        return BAUD_RATE_MESSAGE + CRLF;
      }
      comPort := comPort.(baudRate := baud.value);
      var bits := ToInt32(dataBits);
      if !bits.Converted? {
        return ConversionMessage(bits) + CRLF;
      } else if !(5 <= bits.value <= 8) {
        return DATA_BITS_MESSAGE + CRLF;
      }
      comPort := comPort.(dataBits := bits.value);
      comPort := comPort.(parity := ParityFromText(comPort.parity, parity));
      comPort := comPort.(stopBits := StopBitsFromText(comPort.stopBits, stopBits));
      match outcome {
        case OpenThrew(message) =>
          return message + CRLF;
        case PortOpened =>
          comPort := comPort.(isOpen := true);
        case ReturnedClosed =>
      }
      comPort := comPort.(dataReceivedSubscriptions := comPort.dataReceivedSubscriptions + 1);
      status := if comPort.isOpen then OpenedStatus(comPort.portName) else OpenFailedStatus(comPort.portName);
    }

    method Close(outcome: CloseOutcome) returns (status: string)
      modifies this`comPort
      ensures PortResult(comPort, status) == CloseSpec(old(comPort), outcome)
    {
      match outcome {
        case CloseThrew(message) =>
          return message + CRLF;
        case PortClosed =>
          comPort := comPort.(isOpen := false);
      }
      status := ClosedStatus(comPort.portName);
    }

    method IsOpen() returns (open: bool)
      ensures open <==> comPort.isOpen
    {
      open := comPort.isOpen;
    }

    /** One run of the handler subscribed to `DataReceived`: reads a line and gives
        it, with "\n" appended, to every registered callback in registration order.
        A closed port, or a read that throws, invokes nothing. */
    method DataReceivedHandler(read: ReadOutcome) returns (invoked: seq<Invocation>)
      ensures !comPort.isOpen || read.ReadThrew? ==> invoked == []
      ensures comPort.isOpen && read.LineRead? ==>
                && |invoked| == |onMessageReceived|
                && forall i :: 0 <= i < |invoked| ==>
                     invoked[i] == Invocation(onMessageReceived[i], read.line + "\n")
    {
      if !comPort.isOpen {
        return [];
      }
      match read
      case ReadThrew(_) =>
        invoked := [];
      case LineRead(line) =>
        var inData := line + "\n";
        var callbacks := onMessageReceived;
        invoked := seq(|callbacks|, i requires 0 <= i < |callbacks| => Invocation(callbacks[i], inData));
    }
  }
}
