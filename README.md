# TERMINAL: a serial data terminal, modelled in Dafny

TERMINAL is a small Windows Forms program. It opens a serial COM port and shows every line the port receives in a window. It sends typed messages to the port, and it can replay a log file to the port, one line per second, looping over the file.

This project models its two core files:

- `Terminal/Serial_Rx_Tx.cs` is the `SerialComPort` wrapper around the runtime's `SerialPort`. It configures and opens the port, writes strings to it, and hands each received line to a list of registered callbacks.
- `Terminal/MainForm.cs` is the main window. Its state is:
  - a single-slot receive buffer (`_dataReady`, `_receivedData`), filled by the port callback and drained by a display timer;
  - a replay file (`_file`), advanced by a replay timer;
  - the window text;
  - the labels of the Open/Close and Replay buttons.

The model has three modules:

- `NetStrings` (`net_strings.dfy`) holds the runtime's text operations that the core relies on: ordinal `String.Contains`, `String.TrimEnd()`, and `Convert.ToInt32(string)`.
- `SerialRxTx` (`serial_rx_tx.dfy`) covers the port and the wrapper:
  - The .NET port object is a record, `SerialPort`, with the properties the wrapper assigns or reads. It also counts how often the wrapper's handler has been added to `DataReceived`.
  - `OpenSpec` and `CloseSpec` specify `Open` and `Close`.
  - The class `SerialComPort` has fields `comPort`, `onMessageReceived` (the invocation list) and `written` (everything the runtime's `Write` accepted). Its methods update those fields step by step, as the source does.
  - What the device does is an input to each operation: `OpenOutcome`, `CloseOutcome`, `ReadOutcome` and `WriteOutcome`.
- `Terminal` (`main_form.dfy`) covers the main window:
  - the class `MainForm` has one method per event handler, and each handler is one atomic step;
  - pure specifications of the receive slot (`Receive`, `Drain`, `RunMailbox`) and of the replay file (`LineFile`, `ReplayStep`, `RunReplay`);
  - the lemmas about those specifications.

Three behaviours of the code are modelled as written:

- **The receive slot keeps the OLDER message.** When a line arrives while the slot is full, the incoming line is thrown away and the waiting one is kept (`Terminal/MainForm.cs:45-48`). The comment at `Terminal/MainForm.cs:84-86` speaks of a line buffer "over-write" when the display timer falls behind. The code does not overwrite, it drops the newer line. The model follows the code, and `SecondArrivalIsDropped` states it.
- **The last line of the replay file is never sent.** Each tick reads a line and sends it only if the stream is not yet at its end. So the line that reaches the end is dropped, and each pass of `n` ticks sends the first `n - 1` lines (`ReplayPass`, `LastLineNeverSent`).
- **The success test can be fooled.** The window decides that opening succeeded when the status text contains "Opened". Two things can make a failed open pass that test:
  - a trimmed port name that contains "Opened", e.g. "COMOpened" (`OpenedInNameFakesSuccess`, with the concrete case `PortNameCanFakeSuccess`);
  - an exception message from the runtime's `Open()` that contains "Opened", such as one quoting such a port name (`OpenedInMessageFakesSuccess`).

  When neither the trimmed port name nor a thrown message contains "Opened", the test is exact (`OpenStatusSignalsSuccess`).

`Open` is not transactional. On a closed port it first assigns the fixed buffer sizes, timeouts, DTR and handshake. It then assigns the port name, the baud rate, the data bits, the parity and the stop bits, in that order. The first assignment that throws ends the call and returns the exception's message, and the assignments before it stay in effect. The model carries out the runtime's documented setter checks:

- no buffer size may be set while the port is open;
- `PortName` must not be empty or start with `\\`;
- `BaudRate` must be positive;
- `DataBits` must lie between 5 and 8;
- `Convert.ToInt32` fails on bad formats and on overflow.

## Model

| member | source | states |
|---|---|---|
| NetStrings.Contains | Terminal/MainForm.cs:114 | Ordinal `String.Contains`: the empty text is in every string, and a found text is never longer than the string searched. |
| NetStrings.ContainsInPrefix | Terminal/MainForm.cs:114 | A text found in the start of a status is found in the whole status. |
| NetStrings.NotContainsAcross | Terminal/MainForm.cs:114 | "Opened" is not found across a separator character it does not contain, if it is in neither side. |
| NetStrings.NotContainsWithoutHead | Terminal/MainForm.cs:114 | A string lacking the first character of a text does not contain that text. |
| NetStrings.TrimEnd | Terminal/Serial_Rx_Tx.cs:71 | The trimmed name is a prefix of the text, everything cut off is white space, and the result does not end in white space. |
| NetStrings.TrimEndIdempotent | Terminal/Serial_Rx_Tx.cs:71 | Trimming a trimmed name changes nothing. |
| NetStrings.TrimEndDropsPadding | Terminal/Serial_Rx_Tx.cs:71 | Trailing white space added to a port name does not change the name that is stored. |
| NetStrings.ToInt32 | Terminal/Serial_Rx_Tx.cs:72-73 | A successful conversion lies in the 32-bit range. |
| NetStrings.ConvertTrimmed | Terminal/Serial_Rx_Tx.cs:72-73 | A format failure happens exactly when no digits follow the optional sign, or a non-digit does. A success lies in the 32-bit range. |
| NetStrings.ToInt32RoundTrip | Terminal/Serial_Rx_Tx.cs:72-73 | Every 32-bit integer written in decimal converts back to itself. |
| NetStrings.ToInt32Eight | Terminal/MainForm.cs:113 | The data bits text "8" that the window passes converts to 8. |
| NetStrings.ToInt32Baud9600 | Terminal/Serial_Rx_Tx.cs:72 | "9600" converts to the baud rate 9600. |
| SerialRxTx.ParityFromText | Terminal/Serial_Rx_Tx.cs:74-85 | "None", "Even" and "Odd" select the parity of that name. Any other text keeps the previous parity. |
| SerialRxTx.StopBitsFromText | Terminal/Serial_Rx_Tx.cs:86-94 | "One" and "Two" select the stop bits of that name. Any other text keeps the previous stop bits. |
| SerialRxTx.SettingNamesSelect | Terminal/Serial_Rx_Tx.cs:74-94 | Naming a recognised setting selects it, whatever the previous setting was. |
| SerialRxTx.OpenedStatus | Terminal/Serial_Rx_Tx.cs:102 | The success status starts with the port name, ends the line, and contains "Opened". |
| SerialRxTx.OpenFailedStatus | Terminal/Serial_Rx_Tx.cs:102 | The failure status starts with the port name and ends the line. It contains "Opened" only if the port name does. |
| SerialRxTx.ClosedStatus | Terminal/Serial_Rx_Tx.cs:115 | The close status starts with the port name, then " Closed", and ends the line. |
| SerialRxTx.OpenSpec | Terminal/Serial_Rx_Tx.cs:61-103 | Opening an open port changes nothing and reports the set-while-open error. Otherwise the buffers are set to 4096, the timeouts to 500, DTR on and handshake None, whatever the arguments. The trimmed name and the baud rate are stored only if every earlier step succeeded. Data bits, parity and stop bits change only if all arguments are accepted. The port is open afterwards iff it was open already, or the arguments were accepted and the device opened. One more `DataReceived` subscription is added iff the runtime's `Open()` returned normally. The status is "{name} Opened \r\n" or "{name} Open Failed \r\n" after a normal return, and an exception message plus "\r\n" otherwise. |
| SerialRxTx.CloseSpec | Terminal/Serial_Rx_Tx.cs:105-116 | A normal close leaves the port closed with every other setting unchanged, and reports "{name} Closed\r\n". A throwing close changes nothing and reports the message. Neither removes a subscription. |
| SerialRxTx.OpenStatusSignalsSuccess | Terminal/Serial_Rx_Tx.cs:98-102 | If neither the trimmed port name nor a thrown message contains "Opened", the status contains "Opened" iff this call opened the port. |
| SerialRxTx.PortNameCanFakeSuccess | Terminal/Serial_Rx_Tx.cs:102 | A closed port named "Opened" that does not open reports a status containing "Opened". |
| SerialRxTx.OpenedInNameFakesSuccess | Terminal/Serial_Rx_Tx.cs:102 | With accepted arguments, any trimmed port name containing "Opened" makes a port that does not open report a status containing "Opened". |
| SerialRxTx.OpenedInMessageFakesSuccess | Terminal/Serial_Rx_Tx.cs:98-101 | With accepted arguments, an `Open()` exception whose message contains "Opened" leaves the port closed with a status containing "Opened". |
| SerialRxTx.ReopeningStacksSubscriptions | Terminal/Serial_Rx_Tx.cs:95-96 | After `k` open/close cycles with accepted arguments, the port is closed and the handler is subscribed `k` more times. |
| SerialRxTx.RemoveLast | Terminal/Serial_Rx_Tx.cs:43 | `-=` keeps every callback but one registration of `f`: the new multiset of callbacks is the old one minus one `f` (if any). |
| SerialRxTx.LastIndex | Terminal/Serial_Rx_Tx.cs:43 | The position found holds `f`, and no later position holds `f`. |
| SerialRxTx.RemoveLastAbsent | Terminal/Serial_Rx_Tx.cs:43 | Deregistering a callback that is not registered leaves the list unchanged. |
| SerialRxTx.RemoveLastPresent | Terminal/Serial_Rx_Tx.cs:43 | Deregistering a registered callback removes exactly its last occurrence. |
| SerialRxTx.DeRegisterUndoesRegister | Terminal/Serial_Rx_Tx.cs:37-44 | Deregistering the callback just registered restores the previous list. |
| SerialRxTx.SerialComPort.constructor | Terminal/Serial_Rx_Tx.cs:23-26 | A new wrapper has a default closed port, no callbacks and nothing written. |
| SerialRxTx.SerialComPort.RegisterReceiveCallback | Terminal/Serial_Rx_Tx.cs:37-40 | The callback is appended to the invocation list. |
| SerialRxTx.SerialComPort.DeRegisterReceiveCallback | Terminal/Serial_Rx_Tx.cs:41-44 | The last occurrence of the callback is removed from the invocation list. |
| SerialRxTx.SerialComPort.SendLine | Terminal/Serial_Rx_Tx.cs:46-59 | Exactly the given string is written when the port is open and the write succeeds. Otherwise nothing is written, and no error reaches the caller. |
| SerialRxTx.SerialComPort.Open | Terminal/Serial_Rx_Tx.cs:61-103 | The step-by-step property assignments leave the port and the status exactly as `OpenSpec` says. |
| SerialRxTx.SerialComPort.Close | Terminal/Serial_Rx_Tx.cs:105-116 | The port and the status are exactly as `CloseSpec` says. |
| SerialRxTx.SerialComPort.IsOpen | Terminal/Serial_Rx_Tx.cs:118-121 | The result is the port's open state. |
| SerialRxTx.SerialComPort.DataReceivedHandler | Terminal/Serial_Rx_Tx.cs:123-141 | A closed port, or a read that throws, invokes nothing. Otherwise every registered callback is invoked once, in registration order, with the line plus "\n". |
| Terminal.Receive | Terminal/MainForm.cs:43-54 | Afterwards the slot is full. An empty slot holds the new message; a full slot still holds only its earlier message. |
| Terminal.Drain | Terminal/MainForm.cs:56-61 | Afterwards the slot is empty. The tick shows the waiting message if there was one, and nothing otherwise. |
| Terminal.RunMailbox | Terminal/MainForm.cs:43-61 | Over any run of arrivals and ticks, no more messages are dropped than arrive, and a run that ends with a tick leaves the slot empty. |
| Terminal.MailboxAccountsForEveryMessage | Terminal/MainForm.cs:43-61 | Over any run of arrivals and ticks, the shown messages plus the still-waiting one, and the dropped messages, interleave to exactly the arrivals. Each message is shown once or dropped, and shown messages keep their arrival order. |
| Terminal.MailboxCounts | Terminal/MainForm.cs:43-61 | Arrivals equal messages shown plus messages dropped plus the at most one still waiting. |
| Terminal.ReceiveThenTwoTicks | Terminal/MainForm.cs:43-61 | A message put into an empty slot is shown by the next tick, and a second tick shows nothing more. |
| Terminal.SecondArrivalIsDropped | Terminal/MainForm.cs:45-48 | With two arrivals and no tick between them, the first message is shown and the second is dropped. |
| Terminal.ReadLine | Terminal/MainForm.cs:68 | Reading returns the line at the cursor and advances it, or returns null at the end and leaves the file unchanged. |
| Terminal.ReplayStep | Terminal/MainForm.cs:63-82 | If another line follows the cursor, the tick sends the cursor's line plus "\r\n" and advances. Otherwise it rewinds to 0 and sends nothing. The cursor stays before the last line, or at 0. |
| Terminal.RunReplay | Terminal/MainForm.cs:63-82 | Ticking never changes the file's lines and keeps the cursor within them. |
| Terminal.ReplayFinishesPass | Terminal/MainForm.cs:68-76 | Ticking from line `c` to the end sends lines `c` to `n - 2`, each with "\r\n", and ends rewound. |
| Terminal.ReplayPass | Terminal/MainForm.cs:68-76 | A pass of `n` ticks from the start sends the first `n - 1` lines in order and ends rewound. |
| Terminal.RunReplayAdditive | Terminal/MainForm.cs:63-82 | Running `a` ticks and then `b` more is the same as running `a + b` ticks. |
| Terminal.ReplayRepeats | Terminal/MainForm.cs:75 | `q` full passes send the first `n - 1` lines `q` times over, and end rewound. |
| Terminal.LastLineNeverSent | Terminal/MainForm.cs:68-76 | From any cursor and for any number of ticks, every text sent is a line before the last, plus "\r\n". |
| Terminal.ShortFileSendsNothing | Terminal/MainForm.cs:68-76 | A file of one line, or an empty one, never sends anything. |
| Terminal.TerminalOpenSettings | Terminal/MainForm.cs:113 | With a usable name and baud rate, the window's fixed "8", "None", "One" give 8 data bits, no parity and one stop bit. The port then opens iff the device opens. |
| Terminal.MainForm.constructor | Terminal/MainForm.cs:17-34 | The window registers its handler as the port's only callback. It starts with an empty slot and no replay file. |
| Terminal.MainForm.ReceiveDataHandler | Terminal/MainForm.cs:43-54 | The slot changes exactly as `Receive` says. |
| Terminal.MainForm.UpdateDataWindow | Terminal/MainForm.cs:87-92 | The message is appended to the window text. |
| Terminal.MainForm.ReceivedDataTimerTick | Terminal/MainForm.cs:56-61 | The slot changes as `Drain` says. The shown message, if any, is appended to the window exactly once. |
| Terminal.MainForm.ComPortDataReceived | Terminal/Serial_Rx_Tx.cs:123-141 | A line read on an open port goes to the window's slot with "\n" appended. Otherwise the slot is unchanged. |
| Terminal.MainForm.ReplayLogTimerTick | Terminal/MainForm.cs:63-82 | Without a file nothing happens. With one, the file advances as `ReplayStep` says, and its text is written when the port is open and the write succeeds. |
| Terminal.MainForm.OpenComPortClick | Terminal/MainForm.cs:107-125 | In open mode the port follows `OpenSpec` with "8", "None", "One". The label becomes "Close COM Port" only if the status contains "Opened". In close mode the port follows `CloseSpec` and the label returns to "Open COM Port". Either way the status is appended to the window. |
| Terminal.MainForm.ClearRxDataClick | Terminal/MainForm.cs:127-130 | The window text is emptied. |
| Terminal.MainForm.SendMessageClick | Terminal/MainForm.cs:132-144 | With the port open, the text plus "\r\n" is written (if the write succeeds) and echoed to the window. With it closed, nothing is written and "Open COM port first\r\n" is appended. |
| Terminal.MainForm.ReplayLogClick | Terminal/MainForm.cs:151-174 | With the port closed, only "Open COM port first\r\n" is appended, even in stop mode. Choosing a file starts replay at its first line, shows "Stop Replay Log" and reports the file name. Cancelling changes nothing. Stopping clears the file and restores "Replay Log". |

## Left out

- `Com/Form1.cs` is not part of this model. It is a separate demo built on a background reader thread and a foreign DLL call.
- The thread race between the port's `DataReceived` thread-pool callback and the UI timers is not modelled. Each event handler is one atomic step.
- The timer intervals (25 ms and 1000 ms) and the throughput they allow are timing, not logic.
- Windows Forms glue is left out: `InitializeComponent`, caret and scrolling, the title bar version, the About and Tutorials buttons, and `MessageBox` and `Process.Start`.
- The designer file is not part of this model. The starting labels "Open COM Port" and "Replay Log" and the empty window text are assumed.
- `OpenFileDialog` is replaced by the parameter `choice`: `None` when cancelled, otherwise the file's name and its lines.
- A file that cannot be opened throws out of `BReplayLog_Click` without being caught. The model always opens the chosen file.
- `StreamReader` buffering, encodings and `BaseStream.Seek` details are left out. The replay file is a fixed sequence of lines with a cursor, and reading it never fails.
- The real `SerialPort` library is an input to each operation. Whether the device opens, what `ReadLine` returns, and whether `Write` or `Close` throws are given as `OpenOutcome`, `ReadOutcome`, `WriteOutcome` and `CloseOutcome`.
- `ReadLine` framing and timeouts belong to that library and are not modelled.
- A write either succeeds whole or throws; partial writes are not modelled.
- The exception message texts in `SerialRxTx` are stand-ins for the runtime's wording. They are chosen, like the real messages, to contain no "Opened".
- Runtime argument checks other than the setter checks listed above are left out. For example, a baud rate the device rejects is an `OpenThrew` outcome.
- Terminal.MainForm.ComPortDataReceived models one run of the wrapper's handler per `DataReceived` event. With the handler subscribed `k` times, the runtime runs it `k` times per event.
- Callbacks in the model never throw. In the source, a throwing callback would stop the later callbacks, because the exception is caught in `DataReceivedHandler`. The only callback registered, the window's `ReceiveDataHandler`, does not throw.
- Terminal.MainForm.Valid asserts that a present replay file implies the "Stop Replay Log" label, but not the converse. The stop branch's null check is therefore kept as a reachable no-op.
- `Debug.Print` logging is not modelled. Dropped receive messages are counted by `RunMailbox` instead.
- The finalizer `~SerialComPort`, which calls `Close()`, is left out, because finalization is not part of a sequential model.
- Culture-specific number formats in `Convert.ToInt32` are left out. The model accepts ASCII white space, an optional `+` or `-`, and ASCII digits.
