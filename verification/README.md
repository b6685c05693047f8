# SSH tarpit honeypot — Dafny model

The honeypot listens on TCP port 2222, accepts one connection at a time and
feeds the client an endless stream of junk lines, one every five seconds,
until a `send` fails. This project models the part of `honeypot.cpp` that has
logic beyond system calls:

- `ConnectionSocket::make_line` (module `Lines`): a payload of 10 to 39
  characters, each drawn from printable ASCII (codes 32 to 126). When the
  payload starts with `SSH-`, its first character is replaced by `X`. The
  line ends with CRLF. The values returned by successive `rand()` calls are an
  input stream `Rand`, read from a given position.
- `Logger::log_level_to_string` (module `Logger`): the name of each of the
  five `LogLevel` enumerators. The switch is modelled over the enumerator's int
  value, so its `default` branch ("UNKNOWN") is modelled as well. A log call is
  recorded as a (level, message) `Entry`.
- `ConnectionSocket::send_data` (module `Connection`): a state machine whose
  `Step` is one pass of the `while (1)` body: make a line, send it, then
  either throw on a negative result or sleep `WAIT_TIME` = 5 seconds. The
  values the `send` calls return are an input sequence.
- The accept loop of `main` together with `accept_connection` (module
  `Server`): a state machine over clients. It logs the peer, then throws if
  `accept` failed, and otherwise runs the session. It prints the message of
  every caught `runtime_error`, and closing the connection's descriptor is
  modelled as a record of which descriptors were closed.

The main results:

- Over every sequence of `rand()` results, `make_line`'s contract describes
  its outputs exactly. Every line it makes
  is a printable payload of 10 to 39 characters, not starting with `SSH-`,
  followed by CRLF (`Lines.MakeLine`). Conversely, every such line is made
  from some draws (`Lines.MakeLineComplete`).
- A session performs exactly k + 1 sends when the first negative send
  result is at index k. It leaves the loop only by throwing. It ignores all
  results after the failure. A result of 0 counts as success.
- The server survives every per-connection failure that `accept` or `send`
  reports by returning a negative value. A session that never fails blocks
  every later client, because the loop runs on one thread.

Three facts about the code shape the session model:

- `send_data` has no liveness probe, so a session leaves its loop only by
  throwing, when `send` reports a failure by returning a negative value.
- A `send` that returns 0 continues the loop.
- `WAIT_TIME` is 5 seconds (honeypot.cpp:113).

## Model

| member | source | states |
|---|---|---|
| Logger.Code | honeypot.cpp:17 | each enumerator's int value lies in 0..4, the range the switch covers |
| Logger.NameOfCode | honeypot.cpp:43-58 | the switch answers "UNKNOWN" exactly when the value is not one of the five enumerators; every answer is non-empty |
| Logger.LevelToString | honeypot.cpp:43-58 | a genuine level never prints as "UNKNOWN", and its name is written in capital letters |
| Logger.LevelNameRoundTrip | honeypot.cpp:43-58 | a name is read back as a level exactly when that level prints as that name (DEBUG, INFO, WARNING, ERROR, CRITICAL) |
| Logger.LevelToStringInjective | honeypot.cpp:43-58 | distinct levels print as distinct names |
| Lines.PayloadLength | honeypot.cpp:97 | the payload length chosen by `rand() % 30 + 10` lies in 10..39 |
| Lines.PayloadLengthOnto | honeypot.cpp:97 | every length in 10..39 is chosen by some draw |
| Lines.PrintableChar | honeypot.cpp:101 | the character `32 + rand() % 95` is printable ASCII (code 32..126) |
| Lines.PrintableCharOnto | honeypot.cpp:101 | every printable ASCII character is chosen by some draw |
| Lines.Chars | honeypot.cpp:100-102 | the loop yields one character per draw: the i-th character comes from the i-th draw read |
| Lines.Defang | honeypot.cpp:105-106 | the rewrite keeps the length and leaves a result that never starts with "SSH-"; a colliding payload becomes "XSH-…"; only index 0 can change, and nothing changes unless the payload starts with "SSH-" |
| Lines.DefangIdempotent | honeypot.cpp:105-106 | applying the rewrite twice gives the same string as applying it once |
| Lines.DefangFixedPoints | honeypot.cpp:105-106 | the rewrite leaves a string unchanged exactly when it does not start with "SSH-" |
| Lines.MakeLine | honeypot.cpp:96-109 | every line is a printable payload of 10..39 characters, not starting with "SSH-", plus CRLF; its payload length is the first draw's choice; it reads one draw for the length and one per character; every character after the first comes from its own draw |
| Lines.MakeLineFirstChar | honeypot.cpp:100-106 | the first character of a line is the character of its own draw, unless the first four character draws spell "SSH-", in which case it is 'X' |
| Lines.MakeLineComplete | honeypot.cpp:96-109 | every line of that shape is produced by some draws, so the contract of MakeLine describes the generator's outputs exactly |
| Connection.FirstFailure | honeypot.cpp:117 | the index of the first negative send result (or the length when there is none): all results before it are non-negative |
| Connection.Step | honeypot.cpp:115-125 | a live pass sends exactly one well-formed line, appended to the ones already sent; it stays alive exactly when `send` returns a non-negative value; a session that threw is unchanged |
| Connection.RunAfterThrow | honeypot.cpp:119-121 | after the throw, no further send result is consulted and nothing changes |
| Connection.RunSends | honeypot.cpp:115-125 | a live session throws exactly when some result is negative, after k + 1 sends when the first negative result is at index k, otherwise after one send per result |
| Connection.RunLines | honeypot.cpp:116-117 | lines already sent stay sent, and every new line has the tarpit's shape |
| Connection.RunSleeps | honeypot.cpp:113-124 | the session sleeps 5 seconds once per successful send, and not after the failed one |
| Connection.RunReports | honeypot.cpp:117-120 | a session that throws has logged "Client disconnected" at INFO once, and its message is the send-error prefix plus the error text; a live session logs nothing |
| Connection.SendData | honeypot.cpp:111-126 | `send_data` on a fresh connection: it throws exactly when a negative result occurs, with k + 1 sends for the first negative at k; it is still alive only when every result was consumed without a failure; it sleeps 5·k seconds; all lines are well formed; the failure is logged once and reported |
| Connection.NoSendAfterFailure | honeypot.cpp:117-121 | the outcome is the same when the results after the first negative one are dropped: no send follows the failure |
| Connection.OnlySignMatters | honeypot.cpp:117 | two result sequences with the same pattern of negative values give the same session: byte counts, short writes included, are ignored |
| Connection.ZeroIsSuccess | honeypot.cpp:117 | a send returning 0 continues the session exactly as a 1-byte write does |
| Server.Serve | honeypot.cpp:169-198 | one pass of main's loop always logs the peer first; it leaves the loop busy exactly when accept succeeded and the session never threw; otherwise it prints one report and closes the descriptor exactly when accept succeeded |
| Server.BusyLoopIgnoresClients | honeypot.cpp:192-199 | while a session is still running, later clients change nothing |
| Server.LoopSurvivesErrors | honeypot.cpp:192-199 | when every pass ends in an error, the loop is ready for the next client and has printed one report per client, in order, each naming the accept or send failure |
| Server.LoopClosesAccepted | honeypot.cpp:177-183 | when every pass ends in an error, exactly the descriptors accept returned have been closed, once each, in order; a failed accept closes nothing. The close is done by `~ConnectionSocket` (honeypot.cpp:94) as the exception unwinds out of the `try` in `main` (honeypot.cpp:193-196) |
| Server.SessionBlocksLaterClients | honeypot.cpp:192-199 | the first client whose session never throws holds the loop: no later client is accepted and the loop stays busy |

## Left out

- Socket creation, `bind`, `listen` (backlog 5) and the `ServerSocket` constructor and destructor (honeypot.cpp:135-167): these are operating-system calls whose only logic is their error checks. These setup failures end the process before the accept loop starts.
- The real `accept`, `inet_ntop` and `send` calls: their return values and the address text are inputs (`Server.Client`, the send result sequence).
- `strerror(errno)`: its text is an input (`reason`) appended to the error message prefixes. The model does not tie `reason` to the failing call: `errno` is read only after `Logger::log` (and, for accept, `inet_ntop`) has run, and those calls may overwrite it.
- `rand()`: its successive results are an input stream of natural numbers. The model does not impose the `RAND_MAX` bound, and all properties hold for every draw.
- The seed of `rand()`: the program never calls `srand`, so every run produces the same default-seed sequence of lines. The model's properties quantify over all streams and say nothing about that particular one.
- SIGPIPE: `send` is called without `MSG_NOSIGNAL`, and `main` does not ignore SIGPIPE. A send on a connection the peer has reset raises SIGPIPE, which by default ends the whole process before `send` returns, so the `catch` in `main` is never reached. Signals are outside the model, which covers only failures `send` reports by returning a negative value.
- Server.LoopSurvivesErrors: it covers only failures reported as a negative return value from `accept` or `send`. A process killed by SIGPIPE is outside the model, because signals are not modelled.
- `sleep(WAIT_TIME)`: modelled only as a count of seconds slept; no clock.
- `Logger::log` formatting, timestamps, console and file output, the constructor that opens `app.log`, and the singleton (honeypot.cpp:25-41, 60-84): these are I/O. Each log call is kept only as its (level, message) pair. The logger filters nothing, so every call is recorded.
- The endless `while (1)` loops: each is followed for as many passes as its input sequence has values. A session still alive at the end of its input is one that has not failed yet.
- The `break` after the `throw` in `send_data` can never run and has no counterpart.
