# Verified model of the Mobilus Cosmo GTW client

This project models, in Dafny 4.11, the C++ client library for the Mobilus Cosmo GTW and proves properties of the
model for all inputs and all runs. Verify it with `dafny verify dfyconfig.toml`.

## What is modelled

- **The client** (`Client.dfy`): connecting, logging in, sending, requests that wait for an answer, receiving,
  dispatching, losing and regaining the connection. It is a class whose methods update its fields in place. The
  library, the network, the clock and `rand` may answer anything. Wherever the source calls code of the user, the
  model may call back into the client, so waits nest inside callbacks inside waits, and dispatches inside dispatches.
- **The steps and their invariant** (`Machine.dfy`, `Invariance.dfy`): every atomic stretch of the client is a function
  from state to state. The class is proved to perform exactly these steps, and each step is proved to keep one
  invariant. What a nested call leaves alone is a relation on states that composes.
- **What has happened** (`History.dfy`): an append-only record of handshake steps, publishes, accepted and popped
  messages, answers, subscriptions, reconnect attempts and the delays drawn for them, and of the calls of the library and
  of `select`, with what they were given and what they answered. Handlers, subscribers, timer callbacks and the callbacks
  of the user record that they were called when they are entered; between popping a message, or releasing a timer, and
  that call the invariant does not hold, so a call that is left out cannot be verified. Session, queue, dispatches,
  progress of a connect and outcome of a request are functions of the record, and the invariant says that the fields
  agree with them.
- **The bus** (`MessageBus.dfy`, `Delivery.dfy`): subscriber lists, and for every subscriber what it has seen, what it
  is still owed, and when it sees things in order.
- **The event loop** (`Timers.dfy`, `Watches.dfy`, `EventLoop.dfy`, `Runtime.dfy`): fixed slot tables with id reuse,
  a steady clock, a ledger with one ticket for every timer ever started that holds when and for how long, and
  `runUntil` with its callbacks changing the tables during the pass.
- **The wire format** (`Bytes.dfy`, `Cipher.dfy`, `Envelope.dfy`): the envelope and CFB with 128-bit segments (section
  6.3 of NIST SP 800-38A) over a block function that stays arbitrary.
- **Smaller parts**: type codes (`Proto.dfy`), the backoff (`Backoff.dfy`), durations (`Time.dfy`) and the DSN parser
  (`Dsn.dfy`).
- **Main results** (`Theorems.dfy`): what the invariant means event by event; `Runtime.EveryRun` states all of it for
  every run. `Shortfalls.dfy` has runs from a new client to each place where the code falls short of what one would
  expect.

## The rules a user keeps to

Some results hold only while the user keeps to the rules, which the model tracks in `disciplined`: no connect or
disconnect while the client is reconnecting, no other timers on the same loop, nobody else watching or unwatching the
client's own descriptor, and a library that refuses to subscribe once the connection is gone. Everything else holds for
every run.

## Where the code differs from what its checks suggest

- `Envelope::deserialize` compares the payload with 13 octets, the header alone, although the prefix adds four. A
  payload of 13 to 16 octets with a matching prefix is read out of bounds (`Envelopes.DecodeVerdict`).
- `timestamp2iv` inserts into a vector that already has its full length; the cipher reads only the first sixteen octets
  (`Cipher.Timestamp2Iv`).
- A missing or refused CONNACK leaves the client connected, so the next reconnect attempt succeeds without dialling. Any
  other failure of connect leaves it unconnected, and an attempt by the rules is connected after a failure exactly in
  those two cases (`Clients.Client.Connect`, `Clients.Client.Reconnect`). The attempt after a failed one ends the
  reconnecting without a session exactly when the failed one missed its acknowledgement and no session was open
  (`Theorems.WhatEndsReconnecting`, `Shortfalls.UnansweredDialEndsReconnecting`).
- A session does not imply a connection. After a failed connect one is open exactly when the events topic was refused,
  or when it was open before and nothing reset it, or when another connect opened it (`Clients.Client.Connect`,
  `Shortfalls.SessionOutlivesConnection`).
- Timer ids are not cleared when a timer fires, and a stale one can stop the wrong timer
  (`Theorems.MiscSparesReconnect`, `Shortfalls.StaleMiscIdMeetsReconnect`).
- `disconnect` does not end the reconnecting but may stop its timer (`Theorems.DisconnectSparesReconnect`,
  `Shortfalls.DisconnectStopsAttempts`).
- A disconnect made inside the client's own handler is undone when the write half of the same call fails; once the
  handlers have returned it lasts until the next connect (`Theorems.DisconnectUndone`,
  `Shortfalls.DisconnectComesUndone`, `Runtime.EveryRun`).
- A failed handshake leaves its socket watched. With all 32 slots taken by such sockets a connect succeeds and its
  socket is not watched (`Theorems.NewLinkWatched`, `Shortfalls.ConnectedButUnwatched`).
- A socket already closed by the library stays watched (`Theorems.LostSocketUnwatched`).
- A subscriber that waits for an answer can dispatch the next message before the current one has reached the
  subscribers behind it; a subscriber sees its messages in order exactly when that never happens to it
  (`Deliveries.SeenInOrder`, `Shortfalls.SubscriberOvertaken`).
- A message of a class without a type code would reach catch-all subscribers twice (`MessageBuses.AudienceCount`); the
  client never dispatches one (`Theorems.DispatchesKnown`).
- A port above 65535 is cut to sixteen bits (`Dsns.DsnRoundTrip`).

## Model

| member | source | states |
|---|---|---|
| `Runtime.EveryRun` | src/MqttMobilusGtwClientImpl.cpp:75-575 | For any list of moves (user calls and loop runs, callbacks calling back any number of times, any answers from library, clock and callbacks): each move is made in full; at every point every main result holds; from each point to any later one nothing recorded is taken back, and a client that is neither connected nor reconnecting stays so unless a connect is made |
| `Theorems.InvariantMeans` | src/MqttMobilusGtwClientImpl.cpp:75-575 | The invariant implies all main results together |
| `Theorems.TimersAreUnique` | src/MqttMobilusGtwClientImpl.cpp:495-523 | At every point at most one reconnect and one misc timer are armed, in the slots the client remembers; an armed reconnect timer implies that the client is reconnecting and no attempt is under way |
| `Theorems.NoAttemptIsLost` | src/MqttMobilusGtwClientImpl.cpp:558-575 | While the user keeps to the rules, reconnecting is the same as one armed reconnect timer or an attempt under way, and a free timer slot always exists |
| `Theorems.KeepAliveNeverDies` | src/MqttMobilusGtwClientImpl.cpp:228-242 | While the user keeps to the rules, from a successful connect until its connection is lost or given up, exactly one misc timer is armed, due within a second, or handleMisc is running; every misc timer is started for one second |
| `Theorems.EveryCallbackOnce` | src/io/SelectEventLoop.cpp:25-32 | The callback of each timer that fired was called exactly once; of any other timer never |
| `Theorems.ExactlyOnceInOrder` | src/MqttMobilusGtwClientImpl.cpp:577-592 | Accepted messages are those popped followed by the queue, in order; the session handler was called with exactly the popped call events on the client's own topic and the bus with exactly the others, each once and in order; the dispatches of the bus are those, one for each |
| `Theorems.EverySubscriberServed` | include/jungi/mobgtw/MessageBus.h:32-50 | Between dispatches every message given to the bus has been handed to each subscriber exactly as often as it was on the lists, however dispatches nested; in order exactly when the subscriber was never overtaken |
| `Theorems.SubscriberSeesRun` | include/jungi/mobgtw/MessageBus.h:18-50 | A subscriber with one subscription has been handed every message of its type dispatched since, each exactly once, and in order if and only if no dispatch for it began while an earlier one was still to reach it |
| `Theorems.DispatchesKnown` | src/ProtoUtils.cpp:20-97 | The client never gives the bus a message without a type code |
| `Theorems.EveryPayloadReadable` | src/MqttMobilusGtwClientImpl.cpp:267-291 | Every payload ever published opens to the type of its message, the client id, platform 4, status 0 and the time read just before it; a peer with the private key of the session open at that moment decrypts it to the message sent; login requests go in the clear |
| `Theorems.EveryLoginSent` | src/MqttMobilusGtwClientImpl.cpp:330-345 | Whenever a connect counts its login as published, the login request has just been handed to the library |
| `Theorems.HandshakePublishes` | src/MqttMobilusGtwClientImpl.cpp:330-345 | A connect whose steps are the whole handshake has published its login request, with the number of the request it waited for, in a payload that opens to it |
| `Theorems.EveryMessageReceived` | src/MqttMobilusGtwClientImpl.cpp:377-420 | Every message ever queued came in a payload with status 0 and its type, and is the parse of its body under the public key of the session then open if it is call events (type 13), and under the private key otherwise |
| `Theorems.WhatIsFiled` | src/MqttMobilusGtwClientImpl.cpp:377-420 | What becomes of a payload, by what it says: the raw-message callback sees it if it opens; status 1 invalidates the session; higher statuses and a missing session change nothing; otherwise exactly a message said under the public key (type 13) or the private key (the rest) is appended to the queue |
| `Theorems.WhatIsSealed` | src/MqttMobilusGtwClientImpl.cpp:404-419 | A message that the gateway seals under that key, with status 0, is what its payload says to the client |
| `Theorems.WhereMessagesGo` | src/MqttMobilusGtwClientImpl.cpp:362-375 | The events topic "clients" and the own topic without a waiting request take the general way; otherwise the request is notified, of the content of an answer or of what is wrong with it; other topics change nothing |
| `Theorems.SessionComesFromLogin` | src/MqttMobilusGtwClientImpl.cpp:330-360 | The open session holds the keys of the last answer to the login request of the connect that opened it; that request succeeded with status 0, and nothing has touched the session since |
| `Theorems.EveryDelayBounded` | src/MqttMobilusGtwClientImpl.cpp:558-575 | Every reconnect timer ever started is due, after the moment it was started, a delay that was drawn for it in [0, min(100*2^k, 120000)) ms, k being the failures since the last success at that moment; one that is armed is due within the present bound |
| `Theorems.MiscSparesReconnect` | src/MqttMobilusGtwClientImpl.cpp:594-598 | Rescheduling the misc timer, the last step of a connect, leaves a pending reconnect armed if and only if the stored misc id differs from the reconnect id |
| `Theorems.DisconnectSparesReconnect` | src/MqttMobilusGtwClientImpl.cpp:135-153 | disconnect never ends the reconnecting, and keeps its timer if and only if the client is not connected |
| `Theorems.LostSocketUnwatched` | src/MqttMobilusGtwClientImpl.cpp:509-523 | After a lost connection its descriptor is still watched if and only if the library had already closed the socket |
| `Theorems.NewLinkWatched` | src/MqttMobilusGtwClientImpl.cpp:87-88 | A new connection is watched by the client if and only if its descriptor is not -1 and others have not taken all slots |
| `Theorems.LiveLinkWatched` | src/MqttMobilusGtwClientImpl.cpp:87-88 | While the user keeps to the rules that stays so for as long as the library has the connection |
| `Theorems.WhatEndsReconnecting` | src/MqttMobilusGtwClientImpl.cpp:558-575 | By the rules, the attempt after a failed one ends the reconnecting without a session if and only if the failed one missed its acknowledgement and no session was open; then it does not dial, otherwise it does |
| `Theorems.DisconnectUndone` | src/MqttMobilusGtwClientImpl.cpp:201-226 | A disconnect made while the handler reads is undone by that handler if and only if its write half is due and fails |
| `Theorems.DisconnectMeans` | src/MqttMobilusGtwClientImpl.cpp:135-153 | disconnect by its effects: no session, no connection; if it was connected, the socket is no longer watched, the slots of both timer ids are empty and all others untouched, and the broker was left |
| `Theorems.LossMeans` | src/MqttMobilusGtwClientImpl.cpp:509-523 | A lost connection by its effects: nothing while reconnecting; otherwise no connection, session or watch, and a reconnect timer in a free slot, due the drawn milliseconds after the clock reading, with all other slots untouched |
| `Theorems.InvalidSessionMeans` | src/MqttMobilusGtwClientImpl.cpp:495-507 | An invalid session by its effects: nothing while reconnecting; otherwise disconnected first and then the reconnect timer armed for exactly the drawn delay |
| `Theorems.MiscMeans` | src/MqttMobilusGtwClientImpl.cpp:594-598 | Scheduling by its effects: the slot of the old id is emptied and a misc timer due in exactly one second takes the slot whose id is stored |
| `Theorems.MiscCallMeans` | src/MqttMobilusGtwClientImpl.cpp:228-242 | handleMisc by the code of the library: 0 leaves the connection and moves the timer by a second, anything else loses the connection |
| `Theorems.WriteMeans` | src/MqttMobilusGtwClientImpl.cpp:218-225 | The write half by the code of the library: 0 changes nothing, anything else loses the connection |
| `Theorems.WhatWaitsAsk` | src/SelectCondition.cpp:25-50 | A round of a wait: without a connection select is asked for nothing, with one for reading, and for writing if the library wants to; unless select fails, the handler is told exactly what it found on the descriptor |
| `Theorems.UnansweredWaitsInFull` | src/SelectCondition.cpp:15-52 | A wait for something that does not come lasts exactly its timeout, to the microsecond, unless select fails; no round begins after what was waited for has come |
| `Shortfalls.UnansweredDialEndsReconnecting` | src/MqttMobilusGtwClientImpl.cpp:97-101 | An attempt whose dial is not acknowledged or is refused meets the contract of reconnect, stays connected, and so does the next attempt, which ends the reconnecting without a session |
| `Shortfalls.UnansweredDialIsReachable` | src/MqttMobilusGtwClientImpl.cpp:509-523 | A new client whose first connection is lost during the wait gets into such an attempt, by the rules |
| `Shortfalls.DisconnectStopsAttempts` | src/MqttMobilusGtwClientImpl.cpp:135-153 | From there, after the failed attempt, a disconnect by the user stops the pending timer while the client goes on reconnecting |
| `Shortfalls.SessionOutlivesConnection` | src/MqttMobilusGtwClientImpl.cpp:108-127 | From a new client: a connect refused at the events topic leaves a session without a connection, and the next connect, refused at its own topic, leaves it again |
| `Shortfalls.StaleMiscIdMeetsReconnect` | src/MqttMobilusGtwClientImpl.cpp:594-598 | From a new client: the reconnect timer takes the slot the misc timer left, the user connects, and the last step of that successful connect stops the reconnect timer while the client goes on reconnecting |
| `Shortfalls.SubscriberOvertaken` | include/jungi/mobgtw/MessageBus.h:43-50 | While the first subscriber handles one message it makes a request, whose wait dispatches the next message; the second subscriber is handed the second message before the first |
| `Shortfalls.OvertakingIsReachable` | include/jungi/mobgtw/MessageBus.h:43-50 | From a new client, by connecting, subscribing twice and receiving two messages in one batch, such a state is reached, with a request that can be made |
| `Shortfalls.DisconnectComesUndone` | src/MqttMobilusGtwClientImpl.cpp:201-226 | From a new client, by the rules: a subscriber disconnects, the write half of the same handler call fails, and the client is reconnecting |
| `Shortfalls.EveryRefusalTakesASlot` | src/MqttMobilusGtwClientImpl.cpp:108-113 | After n connects refused at the own topic, each with another socket, n slots of the loop are taken |
| `Shortfalls.ConnectedButUnwatched` | src/io/SelectEventLoop.cpp:134-145 | After 32 of them a connect succeeds, with a session, and its socket is not watched |
| `Clients.Client.constructor` | src/MqttMobilusGtwClientImpl.h:94-102 | A new client has no connection, session, queue or timers, and satisfies the invariant on any loop that holds none of its timers |
| `Clients.Client.Connect` | src/MqttMobilusGtwClientImpl.cpp:75-133 | A connected client is left as it is; otherwise the dial and its wait are made in full, a failed one is the whole connect, and the result says exactly how far the own steps of this call got; success means that its own login request was published and brought the session that its answers granted; when a session is open after a failure, and after a success; a failure leaves the client connected only for want of an acknowledgement, and an attempt by the rules exactly then; every later failure leaves the broker as the last thing; the state is that of the handshake with the misc timer scheduled, and by the rules the link is live |
| `Clients.Client.ShakeHands` | src/MqttMobilusGtwClientImpl.cpp:83-127 | The handshake without the final misc timer: dial, result, login request, session and connection as for connect; after an accepted dial the login is left out only if the client is not connected any more |
| `Clients.Client.DialAndWait` | src/MqttMobilusGtwClientImpl.cpp:83-106 | The calls of the library, the whole wait for the acknowledgement on the new socket for the connect timeout, and what the context then says: accepted, refused or missing |
| `Clients.Client.DialBroker` | src/MqttMobilusGtwClientImpl.cpp:83-93 | The library calls of connectMqtt and the exact state after it: on success connected, watched, and with this call as the callback target |
| `Clients.Client.ConnectMqtt` | src/MqttMobilusGtwClientImpl.cpp:525-556 | Every call of the library, in order, with what it returned: an existing handle is only reconnected, a new one is made and set up until a call fails; the callback is set exactly when the connection is tried |
| `Clients.WhatIsDialled` | src/MqttMobilusGtwClientImpl.cpp:531-555 | A new handle by the DSN: TLS with its certificate if secure, unchecked only for verify=false; then its user and password; then its host and port, kept alive for 60 seconds; a failed call is the last, and no handle is error 14 |
| `Clients.Client.AwaitConnack` | src/MqttMobilusGtwClientImpl.cpp:90-106 | A whole wait for the acknowledgement, for the connect timeout, and then exactly what the context says; accepted means the last acknowledgement was 0 and the message callback is set on the client; an attempt by the rules is still connected |
| `Clients.Client.ReadConnack` | src/MqttMobilusGtwClientImpl.cpp:97-106 | Missing, refused and accepted acknowledgements, told apart by the context; accepted sets both the callback target and the message callback |
| `Clients.Client.Join` | src/MqttMobilusGtwClientImpl.cpp:108-127 | One subscription and nothing else; a refused one leaves the broker |
| `Clients.Client.OpenGateway` | src/MqttMobilusGtwClientImpl.cpp:108-127 | From an accepted acknowledgement on: result, login request and session as for connect; a failure leaves the broker as the last thing, and a login is left out only without a connection |
| `Clients.Client.EnterSession` | src/MqttMobilusGtwClientImpl.cpp:115-127 | Login, then the events topic: result, login request and session as for connect; a failure leaves the broker as the last thing; the login is sent exactly when the client is connected |
| `Clients.Client.LoginOrLeave` | src/MqttMobilusGtwClientImpl.cpp:115-120 | A failed login leaves the broker as the last thing and returns its own error; a successful one was published and holds the session it was granted; it is sent exactly when the client is connected |
| `Clients.Client.Login` | src/MqttMobilusGtwClientImpl.cpp:330-360 | Success means that the login request of this call was published and opens exactly the session in its last answer; failures are explained by how far the request got |
| `Clients.Client.RequestLogin` | src/MqttMobilusGtwClientImpl.cpp:339-355 | The login request: a timeout exactly when it was answered by nothing, every other failure explained, and success with the request published and the content of its last answer |
| `Clients.Client.AcceptLogin` | src/MqttMobilusGtwClientImpl.cpp:347-360 | Exactly a status of 0 opens the session in the last answer; any other leaves everything as it was |
| `Clients.Client.Disconnect` | src/MqttMobilusGtwClientImpl.cpp:135-153 | The exact state after disconnect; it fails exactly when it was connected and the library returned an error |
| `Clients.Client.CloseConnection` | src/MqttMobilusGtwClientImpl.cpp:139-146 | Unwatch, stop both timers, leave the broker: the exact state |
| `Clients.Client.Send` | src/MqttMobilusGtwClientImpl.cpp:267-291 | NoConnection exactly without a connection, with nothing changed; NoSession exactly without a session for anything but a login; otherwise one publish, right after the time is read, of a payload that carries that time and that the peer can read; the code of the library decides the result |
| `Clients.Client.PayloadFor` | src/MqttMobilusGtwClientImpl.cpp:273-283 | The payload opens to this client, this type, this time, platform 4, status 0 and, under the session key, this body |
| `Clients.Client.SendRequest` | src/MqttMobilusGtwClientImpl.cpp:293-319 | A refused send is returned; otherwise a payload that the peer can read has been published first, the request has waited for the response timeout in full or until notified, and of the payloads handed to it: none is a timeout; all good is success with the content of the last; the last bad one decides by envelope, status, type and parse; an invalid session starts a reconnect; nothing else is changed and nothing waits afterwards |
| `Clients.Client.AwaitAnswer` | src/MqttMobilusGtwClientImpl.cpp:299-305 | One request waits, a whole wait for the response timeout, and is closed on every exit; without other requests every private message of the wait went to it |
| `Clients.Client.Conclude` | src/MqttMobilusGtwClientImpl.cpp:306-318 | Timeout, stored error or response, in this order; exactly an invalid session starts a reconnect, and nothing else changes |
| `Clients.Client.AnswerTo` | src/MqttMobilusGtwClientImpl.cpp:299-318 | The complete specification of a request after its send: the whole wait, the result by the payloads that came, and the state afterwards |
| `Clients.Client.SendSessionRequest` | src/MqttMobilusGtwClientImpl.cpp:321-328 | Without a session nothing happens; with one the request is published under it and runs under the private key held at the call |
| `Clients.Client.Wait` | src/SelectCondition.cpp:15-52 | Round after round, each with something still to wait for and time left, until what is waited for has come, the time is used up or select fails; what select leaves of the time is the timeout of the next round |
| `Clients.Client.WaitOnce` | src/SelectCondition.cpp:24-51 | One round: select is asked to read exactly if the client is connected, and to write if the library wants to as well, for what is left of the time; unless it fails the handler is told exactly what was found |
| `Clients.Client.SocketEvents` | src/MqttMobilusGtwClientImpl.cpp:185-199 | Nothing without a connection; otherwise reading, and writing exactly if the library wants to |
| `Clients.Client.HandleSocketEvents` | src/MqttMobilusGtwClientImpl.cpp:201-226 | Ignored when not connected; a read calls the library and ends with an empty queue or a lost link, and then skips the write; by the code of the library a failed write loses the connection, a good one changes nothing |
| `Clients.Client.HandleRead` | src/MqttMobilusGtwClientImpl.cpp:207-216 | The library's packets are received one after the other; then a failed read is a lost connection and nothing else: unless the user called, nothing was dispatched; a good one leaves the queue empty and, unless the user called or a session ended, has done nothing but dispatch |
| `Clients.Client.OnPackets` | src/MqttMobilusGtwClientImpl.cpp:244-265 | Packet after packet: an acknowledgement reaches the waiting connect, a message the client once it is the callbacks' target, and nothing else happens |
| `Clients.Client.HandleWrite` | src/MqttMobilusGtwClientImpl.cpp:218-225 | The library is asked to write; a failed write is a lost connection, a good one changes nothing |
| `Clients.Client.HandleMisc` | src/MqttMobilusGtwClientImpl.cpp:228-242 | The exact state by the code of the library: unchanged, connection lost, or the misc timer armed again for a second |
| `Clients.Client.OnConnectCallback` | src/MqttMobilusGtwClientImpl.cpp:244-254 | Only a connect that is waiting is notified, with the code it was given |
| `Clients.Client.OnMessage` | src/MqttMobilusGtwClientImpl.cpp:362-375 | Events topic, own topic with and without a waiting request, and any other topic: every branch, from the state in which the raw-message callback left the client |
| `Clients.Client.OnGeneralMessage` | src/MqttMobilusGtwClientImpl.cpp:377-420 | The raw-message callback is called first with every payload that opens; then every branch, from the state in which it left the client |
| `Clients.Client.ConsiderMessage` | src/MqttMobilusGtwClientImpl.cpp:387-419 | The exact state: session invalidated, message filed, or unchanged |
| `Clients.Client.File` | src/MqttMobilusGtwClientImpl.cpp:401-419 | The exact state: the key by message type, the class by type code, then decrypted, parsed and queued; what that means for what the gateway sends is in WhatIsFiled |
| `Clients.Client.OnExpectedResponse` | src/MqttMobilusGtwClientImpl.cpp:422-467 | The raw-message callback is called first with every payload that opens; then the request records its verdict on the payload and is notified |
| `Clients.Client.Answer` | src/MqttMobilusGtwClientImpl.cpp:427-466 | The five verdicts in the order the code checks them; what each is by the fields of the payload is in JudgeMeans |
| `Clients.Client.HandleClientCallEvents` | src/MqttMobilusGtwClientImpl.cpp:469-493 | Called with the message popped for it: EXPIRED, event number 10, is an invalid session and nothing else; an expiry warning calls the session-expiring callback and ends with the keep-alive message if it can be sent; everything else changes nothing |
| `Clients.Client.SessionExpiring` | src/MqttMobilusGtwClientImpl.cpp:485-492 | The session-expiring callback is called with the time, and the keep-alive message is the last thing sent |
| `Clients.Client.HandleInvalidSession` | src/MqttMobilusGtwClientImpl.cpp:495-507 | Nothing while reconnecting; otherwise the exact state after disconnect and arming, the timer due the drawn delay after the clock reading |
| `Clients.Client.HandleLostConnection` | src/MqttMobilusGtwClientImpl.cpp:509-523 | Nothing while reconnecting; otherwise the exact state after unwatching, arming and reset, the timer due the drawn delay after the clock reading |
| `Clients.Client.ArmReconnect` | src/MqttMobilusGtwClientImpl.cpp:517-521 | A delay below the current bound is drawn, and the timer is started for exactly that delay from what the clock then shows, its id stored |
| `Clients.Client.Reconnect` | src/MqttMobilusGtwClientImpl.cpp:558-575 | Nothing when not reconnecting; otherwise one attempt: its result is that of its connect and says how far that got, a connected client ends the reconnecting at once, a failure is counted and the timer armed for a delay below the longer bound; by the rules, when a failure leaves the client connected; when reconnecting ends with a session |
| `Clients.Client.AttemptReconnect` | src/MqttMobilusGtwClientImpl.cpp:566-574 | One attempt, tied to the connect it makes: result, session, live link and misc timer; the exact state after success and after failure, with the next timer and its delay; reconnecting afterwards if and only if it failed |
| `Clients.Client.DispatchQueuedMessages` | src/MqttMobilusGtwClientImpl.cpp:577-592 | The loop ends with an empty queue: every message ever accepted has been popped, and the handler or the bus called with it; unless the user called or a session ended, nothing but the queue and the record has changed |
| `Clients.Client.DispatchOne` | src/MqttMobilusGtwClientImpl.cpp:579-590 | The oldest message is popped, and the next thing is the call of its handler or of the bus, as its topic and class say |
| `Clients.Client.TakeNext` | src/MqttMobilusGtwClientImpl.cpp:580-590 | The type tag decides as the message class would, so both downcasts are right |
| `Clients.Client.Dispatch` | include/jungi/mobgtw/MessageBus.h:32-36 | Called with the message popped for it: typed subscribers first, then catch-all ones, each in subscription order, and all of them by the time it returns |
| `Clients.Client.DispatchFor` | include/jungi/mobgtw/MessageBus.h:43-50 | One call for each subscriber of the type, in order, whatever the subscribers do |
| `Clients.Client.ScheduleMisc` | src/MqttMobilusGtwClientImpl.cpp:594-598 | The old misc timer is stopped, a new one armed for one second from what the clock shows, its id stored |
| `Clients.Client.UserCode` | src/MqttMobilusGtwClientImpl.cpp:62-73 | A user callback may call back any finite number of times and keeps every invariant; without a call it changes nothing; without a connect it leaves a client that is down down |
| `Clients.Client.UserDisconnect` | src/MqttMobilusGtwClientImpl.cpp:135-153 | The exact state after a disconnect by the user |
| `Clients.Client.UserSubscribes` | include/jungi/mobgtw/MessageBus.h:18-30 | Between dispatches the user subscribes to a type or to everything |
| `Invariance.LostConnectionInv` | src/MqttMobilusGtwClientImpl.cpp:509-523 | Losing the connection keeps every invariant |
| `Invariance.InvalidatedSessionInv` | src/MqttMobilusGtwClientImpl.cpp:495-507 | Losing the session keeps every invariant |
| `Invariance.DisconnectedInv` | src/MqttMobilusGtwClientImpl.cpp:135-153 | Disconnecting keeps every invariant |
| `Invariance.MiscScheduledInv` | src/MqttMobilusGtwClientImpl.cpp:594-598 | Rescheduling keeps every invariant as long as it does not hit a pending reconnect under the rules |
| `Invariance.AttemptFailedInv` | src/MqttMobilusGtwClientImpl.cpp:566-571 | Arming the next attempt keeps every invariant, the closed form of the backoff included |
| `Invariance.AttemptSucceededInv` | src/MqttMobilusGtwClientImpl.cpp:573-574 | Ending the reconnecting keeps every invariant |
| `Invariance.AttemptEnds` | src/MqttMobilusGtwClientImpl.cpp:558-575 | What the attempt's connect brought is still so when the attempt has been counted |
| `Invariance.TermsArm` | src/MqttMobilusGtwClientImpl.cpp:495-523 | Starting the reconnect timer keeps it that every own timer runs for the delay drawn for it, or for a second |
| `Invariance.ForeignWatchedInv` | src/io/SelectEventLoop.cpp:134-155 | What others do to the watches leaves the own socket watched or breaks the rules |
| `Invariance.TimerFiredInv` | src/io/SelectEventLoop.cpp:25-32 | Releasing an expired slot keeps every invariant once its callback has been called; a reconnect timer finds the client reconnecting, a misc timer its own id |
| `Invariance.DialledOutInv` | src/MqttMobilusGtwClientImpl.cpp:83-93 | Dialling keeps every invariant and disturbs no other call |
| `Invariance.DialReturned` | src/MqttMobilusGtwClientImpl.cpp:83-106 | A dial with its wait leaves the connects of the callers alone, once the callbacks no longer look for its context |
| `Invariance.AfterAcknowledgement` | src/MqttMobilusGtwClientImpl.cpp:90-106 | After the wait the callbacks find this connect or none; an attempt by the rules is still connected |
| `Invariance.AcknowledgedInv` | src/MqttMobilusGtwClientImpl.cpp:244-254 | An acknowledgement reaches only the waiting connect |
| `Invariance.SubscribedInv` | src/MqttMobilusGtwClientImpl.cpp:108-127 | A subscription advances only its own connect |
| `Invariance.SessionOpenedInv` | src/MqttMobilusGtwClientImpl.cpp:351-360 | A session may be opened only as the answers to the connect's own login request granted it |
| `Invariance.SessionAfterFailure` | src/MqttMobilusGtwClientImpl.cpp:108-127 | After a failed connect a session is open if and only if the events topic was refused, or it was open before and not reset, or another connect opened it |
| `Invariance.SendInv` | src/MqttMobilusGtwClientImpl.cpp:267-291 | Publishing keeps every invariant, readability of the whole wire and the publish of each login included |
| `Invariance.AnsweredInv` | src/MqttMobilusGtwClientImpl.cpp:422-467 | Recording an answer keeps each request equal to the fold of its payloads |
| `Invariance.RequestClosedInv` | src/MqttMobilusGtwClientImpl.cpp:299-305 | A request opened, waited for with anything in between, and closed keeps every invariant |
| `Invariance.RequestComposed` | src/MqttMobilusGtwClientImpl.cpp:293-319 | A send followed by an answered wait is one request, and its publish comes before everything else of it |
| `Invariance.FiledInv` | src/MqttMobilusGtwClientImpl.cpp:377-420 | Filing keeps every invariant |
| `Invariance.TakenInv` | src/MqttMobilusGtwClientImpl.cpp:577-592 | Popping keeps every invariant once the handler or the bus that the message belongs to has been called |
| `Invariance.HandedOverInv` | include/jungi/mobgtw/MessageBus.h:43-50 | A delivery to the next in line keeps every invariant, nested dispatches included |
| `Invariance.DispatchingPast` | include/jungi/mobgtw/MessageBus.h:43-50 | Whatever a subscriber does, the dispatch it interrupted goes on where it was |
| `Invariance.RoomForTimer` | src/io/SelectEventLoop.cpp:109-125 | With only the client on the loop starting a timer cannot fail |
| `Invariance.EvolvesTransitive` | src/MqttMobilusGtwClientImpl.cpp:201-226 | What nested calls leave alone composes over any stretch of re-entrant execution |
| `Histories.CompleteMeansWholeHandshake` | src/MqttMobilusGtwClientImpl.cpp:75-133 | A connect is complete exactly when its own steps are dial, acknowledgements ending in 0, own topic, login sent, login accepted, events topic, and nothing else |
| `Histories.LoginWasPublished` | src/MqttMobilusGtwClientImpl.cpp:330-345 | A connect that has sent its login, or got further, has published the request it waits for |
| `Histories.ResultNamesProgress` | src/MqttMobilusGtwClientImpl.cpp:75-133 | Each of the six results if and only if: the whole handshake; only the dial; acknowledgements and nothing after; a dial or subscription refused; a login request that got no answer; a login refused, unsent or answered otherwise |
| `Histories.DialledMeans` | src/MqttMobilusGtwClientImpl.cpp:83-101 | Waiting for the broker means a successful dial followed by acknowledgements only |
| `Histories.OutcomeMeans` | src/MqttMobilusGtwClientImpl.cpp:306-318 | Success means at least one payload and all good; an error is that of the last bad payload; none is a timeout |
| `Histories.JudgeMeans` | src/MqttMobilusGtwClientImpl.cpp:427-466 | The verdicts on a payload by its fields, each if and only if: does not open or does not parse; status 1; status above 1; another type; and otherwise the content |
| `Histories.OutcomeComesTo` | src/MqttMobilusGtwClientImpl.cpp:306-318 | The outcome of a request by its payloads alone: none is a timeout, all answers a success, and otherwise what is wrong with the last that is no answer |
| `Histories.OpenersLoggedIn` | src/MqttMobilusGtwClientImpl.cpp:330-360 | Only a connect that got past its login is the one that opened a session |
| `Deliveries.SeenAndOwed` | include/jungi/mobgtw/MessageBus.h:32-50 | At every moment, even inside nested dispatches, what a subscriber has seen and what it is still owed make up exactly what concerns it |
| `Deliveries.EachExactlyOnce` | include/jungi/mobgtw/MessageBus.h:32-50 | With every dispatch done, each was handed to each subscriber exactly as often as it is in the audience |
| `Deliveries.SeenInOrder` | include/jungi/mobgtw/MessageBus.h:32-50 | With every dispatch done, a subscriber has seen what concerns it in dispatch order if and only if no dispatch for it began while an earlier one was still to reach it |
| `Deliveries.ConcernedFrom` | include/jungi/mobgtw/MessageBus.h:18-50 | A single subscription concerns exactly the later messages of its type |
| `Runtime.FirePass` | src/io/SelectEventLoop.cpp:16-33 | Slot after slot has its turn, callbacks may start and stop timers in between, and no timer due at the start is armed at the end; active timers are reported if and only if a slot was active at the start |
| `Runtime.FireSlot` | src/io/SelectEventLoop.cpp:25-32 | An expired timer is fired for good and its callback is the next thing called; otherwise nothing changes |
| `Runtime.Take` | src/io/SelectEventLoop.cpp:25-30 | The clock is read, and what fires is exactly a timer that has then expired, its slot free before the call; a reconnect timer never meets the guard of reconnect |
| `Runtime.Call` | src/io/SelectEventLoop.cpp:31 | The callback is called, and when it returns the client is at rest |
| `Runtime.RunUntil` | src/io/SelectEventLoop.cpp:10-97 | Every round of the loop is a whole one, in order; the loop goes on until it is stopped or a round ends it: past the deadline, nothing watched and no timer active, select failed or refused an overdue timeout |
| `Runtime.RunRound` | src/io/SelectEventLoop.cpp:15-96 | One round: past the deadline nothing happens; otherwise all timer slots have their turn and nothing due stays armed; every handler is asked; then exactly with nothing to do the loop ends, and after select every watch slot has its turn with what was found |
| `Runtime.Ask` | src/io/SelectEventLoop.cpp:72-78 | select is asked for exactly what the handlers want, for a timeout that reaches neither the deadline nor an armed timer while a microsecond more would; it fails by itself or because something is overdue by a microsecond |
| `Runtime.TakeStep` | src/MqttMobilusGtwClientImpl.cpp:75-575 | A move is made in full: a call by the user, or whole rounds of the loop until it ends |
| `Runtime.HandlePass` | src/io/SelectEventLoop.cpp:80-95 | Slot after slot has its turn; whoever watches when its turn comes is called with what select found, although handlers may change the watches |
| `Runtime.HandleSlot` | src/io/SelectEventLoop.cpp:80-95 | The turn of a slot: its handler is called with exactly what select found for the descriptor of the slot |
| `Runtime.Collect` | src/io/SelectEventLoop.cpp:43-65 | Every handler is asked what it wants to be told of; a descriptor is asked for exactly if the handler of one of its slots wants that, the client reading while connected and writing if the library wants to |
| `Runtime.FinishRound` | src/io/SelectEventLoop.cpp:35-96 | A round after its firing pass: the loop is left exactly with nothing to do or when select fails or refuses; otherwise the handlers have their turn with what was found |
| `Runtime.HighestFd` | src/io/SelectEventLoop.cpp:46-65 | -1 exactly when no non-negative descriptor is watched |
| `EventLoops.SelectEventLoop.StartTimer` | src/io/SelectEventLoop.cpp:109-125 | First-fit start, due the delay after the clock reading: the id and the whole table |
| `EventLoops.SelectEventLoop.Now` | src/io/SelectEventLoop.cpp:117 | The clock never goes back |
| `EventLoops.SelectEventLoop.StopTimer` | src/io/SelectEventLoop.cpp:127-132 | The slot is cleared when the id is in range, and nothing else |
| `EventLoops.SelectEventLoop.TakeExpired` | src/io/SelectEventLoop.cpp:25-31 | The clock is read; an expired slot is released and its callback handed out |
| `EventLoops.SelectEventLoop.WatchSocket` | src/io/SelectEventLoop.cpp:134-145 | Unwatch, then the first unused slot |
| `EventLoops.SelectEventLoop.UnwatchSocket` | src/io/SelectEventLoop.cpp:147-155 | The first slot with the descriptor is cleared |
| `EventLoops.SelectEventLoop.SelectTimeout` | src/io/SelectEventLoop.cpp:35-74 | With nothing overdue the timeout reaches neither past the deadline nor past an expiry, and one more microsecond would; select refuses it exactly when something is overdue by a microsecond |
| `Timers.Conservation` | src/io/SelectEventLoop.cpp:18-33 | Started timers are the disjoint union of armed, fired and stopped ones, and the armed ones are the active slots |
| `Timers.StartOk` | src/io/SelectEventLoop.cpp:109-125 | Starting keeps the ledger consistent; no earlier ticket changes |
| `Timers.ReleaseOk` | src/io/SelectEventLoop.cpp:127-132 | A timer ends once: stopped, or fired not before it was due and not after the present |
| `Timers.ExpireOk` | src/io/SelectEventLoop.cpp:25-31 | A timer that is due when the clock is read ends as fired at that reading |
| `Timers.StartRefinesMap` | src/io/SelectEventLoop.cpp:109-125 | Starting is a map update at the least free id and fails exactly when all are taken |
| `Timers.StopRefinesMap` | src/io/SelectEventLoop.cpp:127-132 | Stopping is map removal |
| `Watches.WatchRefinesMap` | src/io/SelectEventLoop.cpp:134-145 | Watching is map update unless the descriptor is -1 or every slot is taken by others, when nothing changes; no descriptor is live twice |
| `Watches.UnwatchRefinesMap` | src/io/SelectEventLoop.cpp:147-155 | Unwatching is map removal |
| `Time.TimevalBounds` | src/TimeUtils.h:11-20 | Conversion loses less than a microsecond and yields a valid timeval unless a whole microsecond is overdue |
| `Envelopes.Serialize` | src/Envelope.cpp:52-81 | The buffer holds prefix, header and body |
| `Envelopes.Deserialize` | src/Envelope.cpp:8-50 | Every read that the checks protect is in bounds; the verdict on every payload |
| `Envelopes.DecodeEncoded` | src/Envelope.cpp:8-81 | Deserialize undoes serialize on every envelope that fits |
| `Envelopes.EncodeDecoded` | src/Envelope.cpp:8-81 | Serialize undoes deserialize on every accepted payload |
| `Envelopes.DecodeVerdict` | src/Envelope.cpp:12-28 | Accepted, refused and read out of bounds: exactly when |
| `Envelopes.OverreadIsReachable` | src/Envelope.cpp:12-47 | A payload of thirteen octets passes both checks of the source |
| `Envelopes.PeerReadsBody` | src/Envelope.cpp:8-81 | Encrypt, serialize, deserialize, decrypt is the identity |
| `Envelopes.WireLayout` | src/Envelope.cpp:8-81 | A payload is an envelope exactly when its octets are: 0 to 3 the size of the rest, 4 the type, 5 to 8 the time, 9 to 14 the client, 15 the platform, 16 the status, then the body |
| `Envelopes.BodyOctet` | src/crypto/EvpEncryptor.cpp:33-54 | Each octet of a decrypted body is the exclusive-or of the octet on the wire and the image of the sixteen before its block; for the first block, of twelve zeros and octets 5 to 8 |
| `Cipher.DecryptEncrypt` | src/crypto/EvpEncryptor.cpp:10-54 | Decryption undoes encryption for every length, a partial last block included |
| `Cipher.EncryptDecrypt` | src/crypto/EvpEncryptor.cpp:10-54 | Encryption undoes decryption |
| `Cipher.EncryptOctet` | src/crypto/EvpEncryptor.cpp:10-31 | Each octet is masked, by exclusive-or of its bits, with the image of the previous ciphertext block, and in the first block with that of the IV |
| `Cipher.DecryptOctet` | src/crypto/EvpEncryptor.cpp:33-54 | Decryption by octets: exclusive-or with the image of the previous ciphertext block or of the IV |
| `Bytes.XorIsExclusiveOr` | src/crypto/EvpEncryptor.cpp:20 | Each bit of a masked octet is set exactly when the bits of text and mask differ |
| `Cipher.EvpUpdate` | src/crypto/EvpEncryptor.cpp:20-21 | The buffer holds the CFB text after one update |
| `Cipher.Encrypt` | src/crypto/EvpEncryptor.cpp:10-31 | The whole call, buffer and resize included, is CFB with the first sixteen octets of the IV |
| `Cipher.Decrypt` | src/crypto/EvpEncryptor.cpp:33-54 | The whole call is CFB decryption |
| `Cipher.Timestamp2Iv` | src/crypto/utils.cpp:8-17 | Twenty octets, of which the first sixteen are the IV and the rest zero |
| `Cipher.TimestampIvInjective` | src/crypto/utils.cpp:8-17 | Different timestamps give different IVs |
| `Cipher.TimestampIvOctets` | src/crypto/utils.cpp:8-17 | Octets 0 to 11 of the IV are zero, and 12 to 15 weigh 2^24, 2^16, 2^8 and 1 in the timestamp |
| `Bytes.BigEndianOctets` | src/Envelope.cpp:52-81 | The four octets of a word weigh 2^24, 2^16, 2^8 and 1 |
| `Proto.TypeTablesAgree` | src/ProtoUtils.cpp:20-97 | messageTypeFor and newMessageFor are inverse on the known types |
| `Proto.Codes` | include/jungi/mobgtw/MessageType.h:8-21 | The codes as numbers, in both tables |
| `MessageBuses.MessageBus.SubscribeAll` | include/jungi/mobgtw/MessageBus.h:18-22 | Adds to the list of those who want everything |
| `MessageBuses.MessageBus.SubscribeTo` | include/jungi/mobgtw/MessageBus.h:24-30 | Adds to the list of the type |
| `MessageBuses.MessageBus.Add` | include/jungi/mobgtw/MessageBus.h:18-30 | Every list holds the subscribers of its type in the order of their subscriptions |
| `MessageBuses.MessageBus.ListFor` | include/jungi/mobgtw/MessageBus.h:45 | Looking a list up changes no list |
| `MessageBuses.AudienceCount` | include/jungi/mobgtw/MessageBus.h:32-36 | A message concerns a subscriber once for each of its subscriptions to the type and once for each catch-all one |
| `MessageBuses.AudienceOrder` | include/jungi/mobgtw/MessageBus.h:32-36 | Every typed subscriber comes before every catch-all one, and each kind in the order of its subscriptions |
| `Backoff.CappedStep` | src/ExponentialBackoff.cpp:16-19 | Capping every step equals capping base * factor^k |
| `Backoff.ReconnectBounds` | src/MqttMobilusGtwClientImpl.h:94-102 | The bounds in milliseconds: 100, doubled with every failure up to 102400 after ten, and 120000 from then on |
| `Backoff.ExponentialBackoff.Next` | src/ExponentialBackoff.cpp:16-19 | One more failure in the closed form |
| `Backoff.ExponentialBackoff.Reset` | src/ExponentialBackoff.cpp:21-24 | No failures, the base delay |
| `Backoff.ExponentialBackoff.Delay` | src/ExponentialBackoff.cpp:26-29 | Below the bound; the modulus is never zero |
| `Dsns.From` | src/MqttDsn.cpp:8-55 | No match exactly when the expression does not match; out of range exactly for a port above 2147483647; otherwise each field by its group or parameter: user and password if not empty, the port cut to sixteen bits, the certificate, and verification for "true" and "false" |
| `Dsns.DsnRoundTrip` | src/MqttDsn.cpp:8-55 | A DSN written and read back is the same if and only if its port fits sixteen bits, its certificate is that of the last pair named "cacert", and the last pair named "verify" says "true" exactly for verification and "false" exactly for none |
| `Dsns.MatchPrinted` | src/MqttDsn.cpp:10-15 | Printing the groups and matching gives the groups back |
| `Dsns.MatchedIsPrinted` | src/MqttDsn.cpp:10-15 | Whatever matches is its groups, printed |
| `Dsns.MatchDenotes` | src/MqttDsn.cpp:10-15 | A string matches if and only if it is made of a scheme, perhaps a user and password, a host, perhaps a port and perhaps a query, each of its own characters; and it matches as such groups |
| `Dsns.ShortestUser` | src/MqttDsn.cpp:10 | A user and password are taken if any fit, and then the shortest user and the shortest password for it |
| `Dsns.LeftmostPair` | src/MqttDsn.cpp:19-27 | The search finds a pair of key and value if there is one: the leftmost, with the longest value |
| `Dsns.PairsRoundTrip` | src/MqttDsn.cpp:23-27 | Reading printed pairs gives the map in which later pairs win |
| `Dsns.LookupSays` | src/MqttDsn.cpp:32-44 | A parameter has a value exactly when the last pair of its name gives it that value |
| `Dsns.QueryParams` | src/MqttDsn.cpp:23-27 | The search loop terminates with the parameters found from left to right |
| `Dsns.NumberMeans` | src/MqttDsn.cpp:51 | Digits are read in base ten, the first the most significant |
| `Dsns.PortRoundTrip` | src/MqttDsn.cpp:51 | A port survives exactly when it fits sixteen bits |

## Left out

- The library, TLS, sockets and `select` themselves: they are adversaries that return batches, codes and ready sets. The
  topics and the quality of service that are named when publishing and subscribing are not part of the record.
- A DSN without a port: `connectMqtt` dereferences an empty optional there, and the port given to the library is 0 here.
- Behaviour the source leaves undefined: callbacks into a connect that has returned, a second CONNACK after the client
  itself became the callback target, and messages that arrive while a connect waits for its CONNACK do nothing here; a
  payload that deserialize would read out of bounds counts as refused by the client.
- The memory of `sendRequest` and `connect` frames: a pointer into a frame is an index into a list of frames, which
  captures re-entrancy and stale pointers but not the lifetime of the memory. The key of a request is kept as a value.
- The number of calls the user's callbacks make is finite but arbitrary in each run; a callback that never stops calling
  is not a run of the model. A loop run is observed for an arbitrary finite number of rounds.
- User callbacks that run the loop again.
- Subscriptions made during a dispatch of the bus, which change a vector that is being iterated.
- Protobuf: parsing is an arbitrary function by class and octets, and of the fields only the login status, the session
  keys and the first event are visible. A response whose parse failed half-way is not described.
- `strtol` on the expiry warning: the value of a session event is given as expired, a number or neither.
- Lengths above 2^31 - 1: the source passes them through `int`. Messages, payloads and the methods `Encrypt` and
  `Decrypt` are limited to that; the functions and lemmas of the codec are not.
- The regular-expression engine: the alternatives are tried in its order by direct scanning. Line terminators are those
  of the narrow-character engine, carriage return and line feed.
- `TypeFor` and `ClassFor`: comparison of class names is a match on classes.
- `Envelope::operator==` is equality of values; loggers, error texts, the builder, `NullEventLoop`, the destructor,
  `ClientId` and hashing are plumbing or inputs.
- RunUntil: the clock never goes back and is otherwise arbitrary, so nothing is said about how soon a round follows
  another. Time counts from the making of the loop.
- After the last timer has fired with no watches the loop still sleeps to the deadline once; no property is stated.
