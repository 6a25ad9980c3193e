# Two-party chat relay server, modelled in Dafny

The server in `clientserverchatting/Server.java` accepts clients on a
listening socket and gives each one a `RequestHandler`. The first client to
join is "Chat 1" and every later one is "Chat 2", until the `int` join
counter wraps back to 0. A line typed by one client
is forwarded to every started handler that holds the partner identity. `quit`
in any case ends a client's session. An operator console broadcasts lines to
every client, and `quit` typed there shuts the whole server down.

The model turns this into a sequential state machine:

- `Server` is a class. Its fields are the running flag (`isRequestStillComing`),
  the join counter `clientPosition` (a Java `int`, whose wrap-around is written
  out) and the ordered list of handlers.
- `Handler` is a class. Its fields are a fixed identity, a started bit (the
  client's writer exists), an open bit (its socket has not been closed) and an
  outbox (every line written to the client, in order).
- Each event the server reacts to is a method. It is proved against a
  specification function on a value view of the handlers:
  `States(handlers) == Deliver(old(States(handlers)), …)`, `Broadcast(…)` or
  `CloseAll(…)`.
- The properties the server promises are proved as lemmas about those
  functions:
  - who receives a relayed line;
  - in what order lines arrive;
  - which identities are handed out;
  - what shutdown does.
- Whole conversations are proved end to end as scenario methods.

Modules:

- `Wire` (`wire.dfy`): the fixed text lines, the decimal rendering of the
  identity in the welcome line, and Java's `equalsIgnoreCase` as used for
  `quit`.
- `HandlerList` (`handler_list.dfy`): `List.remove(Object)` on a list of
  distinct handlers.
- `Relay` (`relay.dfy`): the identity rule, the partner mapping and the effects
  of relay, broadcast and shutdown on the list of clients, as pure functions
  with lemmas.
- `ChatServer` (`server.dfy`): the `Handler` and `Server` classes and their
  events.
- `Scenarios` (`scenarios.dfy`): conversations driven through the events, each
  proved to end with given outboxes.

The server's invariant `Server.Valid` has four parts:

- the counter is a Java `int`;
- no handler is listed twice;
- every listed handler is open and has identity 1 or 2;
- once the server has shut down, no handler is listed.

Every event preserves it, with one exception: the as-written accept
failure (`AcceptFailsAsWritten`, the finding below) stops the server with
handlers still listed, which breaks the last part. The clients stranded that
way go on being served: they chat, quit or drop, and the operator still
broadcasts to them. So every event other than `Accept` demands only the first
three parts (`Server.WellFormed`), keeps them, and keeps the whole invariant
whenever it held before.

`IsQuit` is exact for the comparison with `"quit"`. Under Java's case
mapping the characters that match q, u, i, t ignoring case are the ASCII
letters plus U+0130 (capital I with dot) and U+0131 (small dotless i).
`IsQuit`'s contract lists them all.

## Model

| member | source | states |
|---|---|---|
| Wire.Decimal | clientserverchatting/Server.java:109 | the identity is written as a non-empty string of decimal digits with no leading zero |
| Wire.DecimalRoundTrip | clientserverchatting/Server.java:109 | reading the decimal text of `n` back as a number gives `n` |
| Wire.IntText | clientserverchatting/Server.java:109 | Java's rendering of an `int` is non-empty and starts with `-` exactly for negative values |
| Wire.IntTextInjective | clientserverchatting/Server.java:109 | two ints with the same rendering are equal |
| Wire.Welcome | clientserverchatting/Server.java:109 | the welcome line for identity 1 is the fixed head, the digit `1` and the fixed tail, and likewise `2` for identity 2 |
| Wire.WelcomeNamesIdentity | clientserverchatting/Server.java:109 | two welcome lines are equal exactly when they name the same identity |
| Wire.EqualsIgnoreCase | clientserverchatting/Server.java:114 | a string always matches itself, and two strings that match have the same length |
| Wire.IsQuit | clientserverchatting/Server.java:114 | a line is `quit` ignoring case iff it has four characters q/Q, u/U, i/I/U+0130/U+0131, t/T |
| Wire.QuitOnAscii | clientserverchatting/Server.java:114 | on ASCII lines the quit test is the same as "folds to lower-case `quit`" |
| Wire.QuitBeyondAscii | clientserverchatting/Server.java:167 | `QUİT` and `quıt` are quit commands; `quit ` and `qui` are not |
| HandlerList.RemoveFirst | clientserverchatting/Server.java:129 | removing an absent handler changes nothing; removing a present one shortens the list by one and adds nothing |
| HandlerList.RemoveFirstAt | clientserverchatting/Server.java:129 | removing the handler at its first position `i` leaves the handlers before and after `i` in their order |
| HandlerList.RemoveFirstDistinct | clientserverchatting/Server.java:129 | on a list without repeats the removed handler is gone, every other one remains, and the list stays without repeats |
| Relay.Increment32 | clientserverchatting/Server.java:59 | `clientPosition += 1` stays a Java `int` and is a plain increment below the largest `int` |
| Relay.PositionAfter | clientserverchatting/Server.java:22 | the counter after any number of accepts is a Java `int` |
| Relay.IdFor | clientserverchatting/Server.java:90-94 | a handler gets identity 1 or 2, and 1 exactly when the counter is 0 |
| Relay.CounterFirstLap | clientserverchatting/Server.java:59 | over the first 2^32 accepts the counter is `n`, then `n - 2^32` after wrapping past the largest `int` |
| Relay.IdentityOfNthJoiner | clientserverchatting/Server.java:53-59 | the first joiner is 1; joiners 2 to 2^32 are all 2; joiner 2^32 + 1 is 1 again because the counter has wrapped to 0 |
| Relay.PartnerId | clientserverchatting/Server.java:97-99 | the partner is 1 or 2, and 2 exactly for identity 1 |
| Relay.PartnerIsInvolution | clientserverchatting/Server.java:97-99 | on identities 1 and 2, partnering has no fixed point and applying it twice gives back the identity |
| Relay.Notify | clientserverchatting/Server.java:136-137 | a client addressed by identity writes the line at the end of its outbox if it holds that identity and has started; otherwise it is unchanged; identity, started and open never change |
| Relay.Deliver | clientserverchatting/Server.java:143-148 | forwarding keeps the list's length and each client's identity, started and open bits; a client's outbox gains the line at its end exactly when it holds the addressed identity and has started, and is unchanged otherwise |
| Relay.RelayReachesPartnersOnly | clientserverchatting/Server.java:135-148 | a relayed line is appended, unchanged, exactly to the started clients that hold the partner identity; every other client (the sender's identity, the sender included, and unstarted partners) is left exactly as it was; no identity, started or open bit changes |
| Relay.RelayAll | clientserverchatting/Server.java:113-123 | relaying a run of lines keeps the list's length and every client's identity, started and open bits; RelayKeepsOrder gives the outboxes |
| Relay.RelayKeepsOrder | clientserverchatting/Server.java:113-123 | after a run of relayed lines, a started partner's outbox is its old outbox plus exactly those lines in order; no other client's outbox changes; identity, started and open never change |
| Relay.RelayAllSnoc | clientserverchatting/Server.java:113-123 | relaying one more line extends the earlier relay by one delivery |
| Relay.Hear | clientserverchatting/Server.java:153-154 | a client reached by a broadcast writes the line at the end of its outbox if it has started, and is unchanged otherwise; identity, started and open never change |
| Relay.Broadcast | clientserverchatting/Server.java:151-157 | a broadcast keeps the list's length and each client's identity, started and open bits; a client's outbox gains the line at its end exactly when it has started, whatever its identity, and is unchanged otherwise |
| Relay.BroadcastReachesStartedOnly | clientserverchatting/Server.java:151-157 | a broadcast line is appended, unchanged, exactly to the started clients, whatever their identity; unstarted clients are untouched |
| Relay.CloseWithNotice | clientserverchatting/Server.java:197-202 | one client at shutdown ends closed with its identity and started bit kept; its outbox gains the shutdown notice if it has started and is unchanged otherwise |
| Relay.CloseAll | clientserverchatting/Server.java:195-204 | shutdown keeps the list's length and each client's identity and started bit, closes every client, and appends the shutdown notice exactly to the started ones |
| Relay.ShutdownClosesEveryone | clientserverchatting/Server.java:195-204 | after shutdown every client is closed; the shutdown notice is appended exactly to the started clients; nothing else changes |
| ChatServer.Handler.constructor | clientserverchatting/Server.java:87-95 | a new handler takes its identity from the counter, has not started, is open and has been sent nothing |
| ChatServer.Handler.SendMessageToClient | clientserverchatting/Server.java:135-139 | the handler writes the line only when it holds the addressed identity and has started |
| ChatServer.Handler.WriteIfStarted | clientserverchatting/Server.java:153-155 | the handler writes the broadcast line only when it has started |
| ChatServer.Handler.CloseForShutdown | clientserverchatting/Server.java:197-202 | the handler is notified only if started, and ends closed |
| ChatServer.Server.constructor | clientserverchatting/Server.java:16-25 | a new server is running, with the counter at 0 and no handlers, and satisfies the invariant |
| ChatServer.Server.Accept | clientserverchatting/Server.java:53-59 | while running, one fresh unstarted open handler is appended, with the identity given by the counter before the increment; the counter advances by a Java `int` increment |
| ChatServer.Server.Start | clientserverchatting/Server.java:104-109 | the handler becomes started and has exactly the welcome line naming its identity appended; the state stays well formed, and valid if it was |
| ChatServer.Server.SendMessageToClient | clientserverchatting/Server.java:143-148 | the listed handlers change exactly as `Deliver` says; the state stays well formed, and valid if it was |
| ChatServer.Server.SendToAll | clientserverchatting/Server.java:151-157 | the listed handlers change exactly as `Broadcast` says; the state stays well formed, and valid if it was |
| ChatServer.Server.Disconnect | clientserverchatting/Server.java:126-130 | the handler is closed and taken off the list; every other handler stays listed and unchanged; the flag and counter are unchanged; the state stays well formed, and valid if it was |
| ChatServer.Server.ReceiveLine | clientserverchatting/Server.java:113-123 | the read loop goes on iff the line is not quit; a non-quit line is delivered to the partner identity; on quit, the sender gets only the goodbye and is closed and removed, and every other listed handler gets the partner-left notice if it is a started partner; the state stays well formed, and valid if it was |
| ChatServer.Server.ReceiveLines | clientserverchatting/Server.java:113-123 | the read loop of a started handler over a run of non-quit lines leaves the list, flag and counter unchanged and the handlers exactly as `RelayAll` of those lines says, so by RelayKeepsOrder each started partner receives the lines in order; the state stays well formed, and valid if it was |
| ChatServer.Server.NotifyAndCloseAll | clientserverchatting/Server.java:194-204 | the listed handlers change exactly as `CloseAll` says |
| ChatServer.Server.Shutdown | clientserverchatting/Server.java:183-209 | when the flag is already clear nothing changes; otherwise the flag is cleared, every listed handler changes as `CloseAll` says, and the list ends empty |
| ChatServer.Server.OperatorLine | clientserverchatting/Server.java:166-172 | the console loop goes on iff the line is not quit; any other line is broadcast with the `[SERVER] ` prefix and nothing else changes; quit leaves the flag clear, and either shuts a running server down as `CloseAll` says with the list emptied, or, when the flag was already clear, changes nothing and releases no one; the state stays well formed, and valid if it was |
| ChatServer.Server.AcceptFailsAsWritten | clientserverchatting/Server.java:69-73 | as written, a failed accept loop clears the flag but leaves every handler listed, open and unnotified; the state stays well formed, so a later shutdown is possible but does nothing |
| ChatServer.Server.AcceptFails | clientserverchatting/Server.java:72-73 | with the cleanup allowed to run, a failed accept loop leaves the server stopped and valid, every handler closed and notified as `CloseAll` says, and the list empty |
| Scenarios.TwoClientChat | clientserverchatting/Server.java:113-130 | the first client says "hi" and the second quits: the second has [welcome 2, "hi", goodbye] and is closed and off the list; the first has [welcome 1, partner left] |
| Scenarios.ThirdJoinerSharesIdentity | clientserverchatting/Server.java:145-146 | a third joiner also gets identity 2, and a line from client 1 reaches both later clients |
| Scenarios.UnstartedClientMissesLines | clientserverchatting/Server.java:136 | a line relayed before the partner's session started is lost; that client later holds only its welcome |
| Scenarios.OperatorBroadcastThenShutdownTwice | clientserverchatting/Server.java:184 | after an operator broadcast, `QUIT` and a second shutdown, the client holds [welcome, broadcast, shutdown notice] and is closed; the server is stopped with an empty list |
| Scenarios.AcceptFailureStrandsClient | clientserverchatting/Server.java:70 | as written, after an accept failure a started client is still listed, still open and has never been told, and the operator typing quit afterwards does not change that |
| Scenarios.StrandedClientsStillChat | clientserverchatting/Server.java:113-123 | after the as-written accept failure, a line from client 1 still reaches client 2 while the server is stopped with both listed |
| Scenarios.StrandedClientsHearOperator | clientserverchatting/Server.java:172 | after the as-written accept failure, an operator broadcast still reaches both stranded clients |
| Scenarios.StrandedClientQuits | clientserverchatting/Server.java:113-130 | after the as-written accept failure, client 2 can still quit: it gets its goodbye and is closed and off the list, and client 1 is told its partner left |
| Scenarios.AcceptFailureReleasesClient | clientserverchatting/Server.java:73 | with the corrected failure path, the client gets the shutdown notice and is closed, and the list is empty |
| Scenarios.DisconnectTwice | clientserverchatting/Server.java:126-130 | disconnecting a client twice leaves it closed and leaves the other client listed and open |

## Left out

- `clientserverchatting/Client.java` is not part of this model. It is console-to-socket glue with no relay logic.
- ChatServer.Server.ReceiveLines: covers a run of lines none of which is `quit`; the line that ends the read loop is `ReceiveLine`'s quit case, so a whole session is `ReceiveLines` followed by one `ReceiveLine`.
- Sockets, readers and writers become the open bit, the started bit and the outbox. A client's read failure or end of stream (lines 113 and 124-125) is the `Disconnect` event.
- Threads, the handler thread pool and its `shutdownNow` (line 207), the daemon console thread, `volatile`, and the snapshot iteration of the copy-on-write list are not modelled. Events are atomic and happen one after another, so interleavings of concurrent handlers are not captured.
- Closing the listening socket at shutdown (lines 189-191) is not modelled; its effect, that no further accept happens, is `Accept`'s precondition that the server is running (the loop guard at line 43).
- The accept loop's retry after a `SocketException` while running (lines 60-67) is not modelled. It changes no modelled state.
- The bind failure at startup (lines 37 and 69-73, before any client exists) is not modelled as an event. The same catch, reached by an accept failure once clients exist, is the finding below.
- All console logging (for example lines 47-50, 130 and 144) is not modelled.
- ChatServer.Server.constructor: `clientPosition` is a static field in the source, shared by every server in the process. The model keeps it in the one server and starts it at 0, as in a fresh process.
- Java's case tables are reduced (`Wire.ToUpper`, `Wire.ToLower`) to the ASCII letters plus U+0130 and U+0131. These are the only characters that matter for the comparison with `quit`, so `IsQuit` is exact, but the tables are not Java's full ones.

## Findings

| source | as written | input that shows it | evidently intended | confidence | as-written member | corrected member |
|---|---|---|---|---|---|---|
| clientserverchatting/Server.java:69-73 | the catch for an I/O failure of the accept loop clears `isRequestStillComing`; the `finally` then calls `shutdownServer`, which returns at once because the flag is clear | one client has joined and started; then `accept` fails with an `IOException` that is not a `SocketException` | the cleanup the `finally` is there for: notify and close every client and empty the list | not executed; low to medium: it needs `accept` to fail with an `IOException` other than a `SocketException` while clients are connected, such as running out of file descriptors | ChatServer.Server.AcceptFailsAsWritten | ChatServer.Server.AcceptFails |
