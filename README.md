# kinli mail dispatcher, modelled in Dafny

This project models the mail dispatcher of the kinli web toolkit (`mailer.go`):

- **The daemon** (`MailDaemon`). One background worker owns the SMTP session. It dials lazily when a message arrives while no session is open. If the dial fails, the message is dropped. Otherwise it sends over the session, and a failed send leaves the session open. When nothing arrives for the idle window (4 seconds), it closes the session, and treats it as closed even if the close fails. When the channel is closed, the loop returns without closing an open session. The function `Next` specifies one loop iteration on a `State` value. `Run` feeds it a stream of events. The class `Daemon` holds the loop's variables (`open`, whether it still runs, and a ghost history of transport calls, received messages and sent messages). Its `Step` and `Loop` methods are proved against `Next` and `Run`.
- **The package globals** (`Mailer`). `InitMailer` starts a daemon only on its first call, because of the `sync.Once` guard. `SendEmail` builds a message and hands it to the daemon over the unbuffered channel. `stop` closes the channel. The class `Mailer` holds the guard, the daemon and the channel's closed flag. The pure function `Init` on a `Boot` value specifies the guard.
- **Message construction** (`MailMessage`). `makeFormattedAddresses` formats each address in order. `MakeEmail` sets From, To, Cc, Bcc and Subject, then every extra header (which overrides a standard field of the same name), then the plain body, and adds a text/html alternative only when the HTML body is non-empty. The gomail message is a class whose methods `SetHeader`, `SetBody` and `AddAlternative` change its header map and body parts.

The transport (gomail's dialer, `Send`, `Close`) is opaque. The success or failure of each dial, send and close is a parameter (`Outcomes`) of each daemon step. gomail's `FormatAddress` is a function value held by the message and nothing is assumed about it. `SetHeader` is taken to replace the field's values, as the note at `mailer.go:109-110` relies on. The gomail library is not part of this model, so this is an assumption.

Two details of the code shape the model:
- The channel is unbuffered (`mailer.go:13`), so a message is handed to the daemon at the moment `SendEmail` sends it.
- On channel close the daemon returns at once (`mailer.go:57-59`). Nothing is left to drain, because every message was handed over synchronously.

## Model

| member | source | states |
|---|---|---|
| MailDaemon.Next | mailer.go:55-87 | one iteration only extends the call trace, the received list and the sent list (history is never rewritten) |
| MailDaemon.Daemon.constructor | mailer.go:46-52 | the daemon starts with no session open, running, with empty history, and keeps its SMTP configuration |
| MailDaemon.Daemon.Step | mailer.go:53-88 | one `select` iteration changes the daemon exactly as `Next` says and keeps the invariant (session flag matches the trace, protocol respected, sends a subsequence of receipts) |
| MailDaemon.Daemon.Loop | mailer.go:53-89 | the loop over an event stream ends in the state `Run` gives and keeps the invariant; it stops reading after the channel is closed |
| MailDaemon.MsgWhileClosedDialsOnce | mailer.go:60-74 | a message arriving with no session open is received and causes exactly one dial, and the loop keeps running; if the dial succeeds the session is open, the message is handed to Send once, and it is in the sent list exactly when the send succeeded |
| MailDaemon.DialFailureDrops | mailer.go:60-77 | a failed dial leaves the session closed and sends nothing; the message is recorded as received but never retried; the next message dials afresh and only it can be sent |
| MailDaemon.MsgWhileOpenSends | mailer.go:70-74 | a message arriving with a session open is received and sent with no dial; the loop keeps running and the session stays open; a failed send leaves the sent list unchanged |
| MailDaemon.TimeoutCloses | mailer.go:79-87 | an idle timeout closes an open session with exactly one Close call and marks it closed whether or not Close failed; with no session open it changes nothing |
| MailDaemon.ClosedChannelEnds | mailer.go:55-59 | a closed channel ends the loop, leaves an open session open with no Close call, and no later event is read |
| MailDaemon.AtMostOneSession | mailer.go:60-87 | under the dial/send/close protocol the number of sessions opened and not closed (a failed Close counting as closed) is 1 when the daemon's flag says open and 0 otherwise, so the daemon never treats more than one session as open |
| MailDaemon.NextInv | mailer.go:53-88 | every loop iteration preserves the invariant: no dial while a session is open, sends and closes only on an open session, sent messages match the successful sends, and attempts and sends are subsequences of the receipts |
| MailDaemon.RunInv | mailer.go:53-89 | the invariant holds after any stream of events and any transport answers |
| MailDaemon.SubsequenceMultiset | mailer.go:53-77 | a subsequence holds each element at most as often as the sequence does, so no received message is sent more often than it was received |
| MailDaemon.SentInArrivalOrder | mailer.go:53-77 | from the start state, whatever the transport answers: sent messages are an order-preserving subsequence of received ones, none is sent more often than received, and at most one session is treated as open |
| MailDaemon.RunReceives | mailer.go:55-59 | the daemon receives exactly the messages queued before the channel closes, in queue order |
| MailDaemon.RunDeliversAll | mailer.go:60-74 | when every dial and send succeeds, every received message is sent, in arrival order |
| MailDaemon.IdleGapRedials | mailer.go:53-88 | scenario on a working transport: message, idle timeout, message gives dial, send, close, dial, send |
| MailDaemon.SubsequenceExtendBoth | mailer.go:70-73 | receiving a message and then sending it keeps the sent list a subsequence of the received list |
| MailDaemon.SubsequenceExtendRight | mailer.go:75-77 | receiving a message that is dropped keeps the sent list a subsequence of the received list |
| Mailer.Init | mailer.go:39-43 | after InitMailer the guard is used; only a call that finds it unused starts a daemon, with the configuration given; a later call changes nothing |
| Mailer.InitIdempotent | mailer.go:39-43 | a second InitMailer leaves the guard as the first call left it |
| Mailer.InitAllAfterStart | mailer.go:39-43 | once started, any number of further InitMailer calls change nothing |
| Mailer.ExactlyOneDaemon | mailer.go:39-43 | a nonempty sequence of InitMailer calls starts exactly one daemon, with the configuration of the first call |
| Mailer.Mailer.constructor | mailer.go:12-15 | at package start the channel is open and no daemon runs |
| Mailer.Mailer.InitMailer | mailer.go:41-43 | the guard moves as `Init` says; the first call creates a fresh daemon with the config, later calls keep the same daemon |
| Mailer.Mailer.SendEmail | mailer.go:121-125 | requires InitMailer and an open channel; the daemon takes one message step with the message `MakeEmail` builds |
| Mailer.Mailer.IdleTimeout | mailer.go:79-87 | the daemon takes one timeout step |
| Mailer.Mailer.Stop | mailer.go:127-132 | closing the channel ends a running daemon without a Close call; requires the channel is not already closed (a second close panics) |
| MailMessage.Message.constructor | mailer.go:102 | a new message has no header fields and no body parts, and keeps its address formatter |
| MailMessage.Message.SetHeader | mailer.go:103-112 | the field has exactly the given values afterwards; other fields and the body are unchanged |
| MailMessage.Message.SetBody | mailer.go:114 | the body is exactly the one given part; header unchanged |
| MailMessage.Message.AddAlternative | mailer.go:115-117 | the part is appended after the existing parts; header unchanged |
| MailMessage.FormatAllAt | mailer.go:92-98 | the formatted list has one entry per address, the i-th formatting the i-th address |
| MailMessage.FormattedIsFormatAll | mailer.go:92-98 | any list with one entry per address, each formatting that address, is the formatted list |
| MailMessage.MakeFormattedAddresses | mailer.go:92-98 | returns one formatted entry per input address, in input order |
| MailMessage.EmailHeader | mailer.go:103-113 | the header fields are From, To, Cc, Bcc, Subject and the extra header names; each extra header overrides with its one value; without an override Subject is the context's subject |
| MailMessage.AddressFieldInOrder | mailer.go:104-106 | without an override, To, Cc and Bcc each have one formatted entry per address of the context, in order |
| MailMessage.FromField | mailer.go:103 | without an override, From is the single formatted sender |
| MailMessage.EmailParts | mailer.go:114-117 | the first part is the plain body; there is a second part, the text/html alternative, exactly when the HTML body is non-empty |
| MailMessage.HtmlAlternativeOnlyIfNonEmpty | mailer.go:115-117 | a text/html part is present exactly when the HTML body is non-empty |
| MailMessage.SetExtraHeaders | mailer.go:109-113 | visiting the extra headers in any order leaves the header as the previous header overridden by every extra header; body unchanged |
| MailMessage.MakeEmail | mailer.go:100-119 | returns a fresh message whose header is `EmailHeader` and whose parts are `EmailParts` |

## Left out

- Goroutines, the blocking of the unbuffered channel (backpressure), and `time.After`. These are concurrency and real time. Events are a sequential stream, and the 4-second idle window is an abstract `Timeout` event.
- gomail internals (`NewDialer`, `Dial`, `Send`, `Close`, `FormatAddress`, `NewMessage`) are a foreign library. Their answers are parameters, and the formatter is an arbitrary function value. The dialer's settings (`LocalName = "localhost"`) are not modelled; the daemon only keeps its `SmtpConfig`.
- MailMessage.Message.SetHeader: does not model gomail's RFC 2047 encoding of header values, which is library code not visible here; values are stored as given.
- `log.Println` output is I/O only.
- A nil `From`, or a nil address in `To`/`Cc`/`Bcc`, makes the Go code panic. So does `InitMailer(nil)`, when the daemon goroutine reads the config at `mailer.go:51`. The model's addresses and `SmtpConfig` are values, so these cases do not arise.
- Mailer.Mailer.SendEmail: returns the built message so that its contract can name it; the Go function returns nothing. Its requires excludes two Go behaviours. Before `InitMailer`, the send at `mailer.go:124` blocks the caller forever, because the channel is unbuffered and nothing receives. After `stop`, the send panics with "send on closed channel". The model does not represent a blocked caller or a panic.
- MailDaemon.AtMostOneSession: a failed Close counts as ending the session, as `mailer.go:86` clears `open` either way. Whether gomail actually released the connection cannot be seen, and the next Dial overwrites the handle without closing it again. So the lemma bounds the sessions the daemon treats as open, not live connections.
- Mailer.Mailer.InitMailer: when `stop` ran before the first `InitMailer`, the new daemon's first receive sees the closed channel. The model takes that step at once.
- session.go, templates.go, page.go and example1/main.go are not part of this model. They are cookie sessions, template loading, page structs and HTTP wiring, outside the mail dispatcher.
