# MediaRPC presence synchronisation, modelled in Dafny

MediaRPC mirrors what is playing on a Windows machine into a Discord rich
presence. This project models its core:

- **Media observer** (`media_session.dfy`, module `MediaSession`): the
  `MediaSessionService` class. It follows the host's current media session and
  keeps handlers on exactly that session. It re-derives the `CurrentMedia`
  snapshot on every push notification and poll tick, and raises
  `MediaInfoChanged`. The host media API is an oracle. Each step is given the
  session the manager reports, what the properties read and the playback read
  answer (a value, null, or an exception), and what the thumbnail stream
  delivers. The pure function `Derive` specifies one derivation, and the
  method `UpdateMediaInfo` is proved against it. `Run` chains derivations, as
  the poll timer does, and the lemmas about it give the trace properties.
- **Presence publisher** (`discord_rpc.dfy`, module `DiscordRpc`): the
  `DiscordRpcService` class. The client library is an abstract handle
  (`NoClient | Client(initialized)`) plus a ghost log of the calls made on
  client objects (`InitializeClient`, `ClearPresence`, `SetPresence`,
  `DisposeClient`) and a ghost log of `ConnectionStateChanged` payloads.
  `PresenceCalls` says what `UpdatePresence` sends, and `Truncate` and
  `Payload` say how the payload is built.
- **Composition root** (`main_window.dfy`, module `Window`): only the
  decisions of `MainWindow`. These are the connect-button state, the
  connect/disconnect toggle, forwarding every media notification to
  `UpdatePresence`, republishing on a ready notification, the auto-connect
  flag, and the stop-then-start restart of the process monitor. C# events run
  their subscribers inline, so a service method returns the notification it
  raised and the window's step dispatches it to the handler straight away.
- `models.dfy` (module `Models`): `MediaInfo` (Models/MediaInfo.cs),
  `Option`, which stands for a nullable reference, and `Text`, a .NET string
  as the sequence of UTF-16 code units that its `Length` and its index ranges
  count. `Utf16` encodes a string literal into it.

The model follows the code:

- there is no `Connecting` state;
- no thumbnail file is cached or deleted;
- `Connect` does not check whether the process is running;
- the snapshot republished on connection is the media service's
  `CurrentMedia`, not a copy kept by the publisher.

Consequences of the code that show up in the model:

- `Connect` does nothing while any handle exists. A client that reported
  closed or error keeps its handle, so only `Disconnect` (or `Dispose`) makes
  a new connection possible.
- If a client reports an error before it is ready, the button reads
  "Connect", but clicking it does nothing. Whether this can happen depends on
  when the client library sets `IsInitialized`, and that library is not part
  of this model.
- Truncation counts UTF-16 code units. A title of 128 characters that holds
  one character outside the Basic Multilingual Plane is cut. When such a
  character straddles the cut, its high surrogate is kept and its low
  surrogate dropped, so the published details are not well-formed UTF-16.
- Assigning the startup check box from code at `Initialize` changes its
  state when the setting is on, which runs `StartupCheckBox_Changed` at once:
  the monitor is stopped and restarted before `Initialize` starts it again.

## Model

| member | source | states |
|---|---|---|
| DiscordRpc.Truncate | Services/DiscordRpcService.cs:82-86 | lengths count UTF-16 code units; a string no longer than the limit (empty included) comes back unchanged; a longer one becomes exactly `maxLength` units: its first `maxLength - 3` units followed by "..." |
| DiscordRpc.TruncateFitsLimit | Services/DiscordRpcService.cs:85 | the result never exceeds the limit |
| DiscordRpc.TruncateIdempotent | Services/DiscordRpcService.cs:82-86 | truncating an already truncated string changes nothing |
| DiscordRpc.Payload | Services/DiscordRpcService.cs:68-77 | the payload has kind Listening; details is the title cut to 128 code units and state is "by " + artist cut to 128 code units, so both fit the limit and short ones are kept verbatim |
| DiscordRpc.PresenceCalls | Services/DiscordRpcService.cs:58-80 | without a connected client nothing is sent; with one, exactly one call is made: the payload is set when the snapshot exists and is playing, and otherwise the presence is cleared |
| DiscordRpc.LongTitleScenario | Services/DiscordRpcService.cs:69-79 | a playing snapshot with a 200-character title and artist "B" gives details of 125 'A' followed by "..." (128 units) and state "by B" |
| DiscordRpc.SupplementaryCharacterCounted | Services/DiscordRpcService.cs:85 | 127 'A' followed by U+1F3B5 is 129 code units long, so it is cut to 125 'A' and "..." |
| DiscordRpc.SurrogatePairSplit | Services/DiscordRpcService.cs:85 | with U+1F3B5 straddling unit 125, the cut keeps its high surrogate (0xD83C) and puts "..." where the low surrogate was |
| DiscordRpc.DiscordRpcService.constructor | Services/DiscordRpcService.cs:14-15 | a new service has no client, is not disposed, and has sent and raised nothing |
| DiscordRpc.DiscordRpcService.IsConnected | Services/DiscordRpcService.cs:17 | connected exactly when a client handle exists and it is initialized |
| DiscordRpc.DiscordRpcService.Connect | Services/DiscordRpcService.cs:21-46 | with any existing handle, closed or errored ones included, nothing changes; otherwise a new uninitialized client is created and initialized, and no notification is raised |
| DiscordRpc.DiscordRpcService.OnClientSignal | Services/DiscordRpcService.cs:30-43 | ready notifies true and marks the client initialized; closed and error notify false and leave the handle in place |
| DiscordRpc.DiscordRpcService.Disconnect | Services/DiscordRpcService.cs:48-56 | without a handle nothing changes; otherwise the presence is cleared, the client disposed, the handle dropped and false notified; afterwards the service is not connected |
| DiscordRpc.DiscordRpcService.UpdatePresence | Services/DiscordRpcService.cs:58-80 | the calls sent are exactly those `PresenceCalls` gives for the current connection state |
| DiscordRpc.DiscordRpcService.Dispose | Services/DiscordRpcService.cs:88-95 | the first call marks the service disposed and disconnects; every later call changes nothing and notifies nothing |
| MediaSession.ThumbnailRead | Services/MediaSessionService.cs:118-137 | a thumbnail exists exactly when the reference is present, the stream opens and delivers at least its reported size; it is then that many bytes, a prefix of what the stream delivers |
| MediaSession.GetThumbnail | Services/MediaSessionService.cs:118-137 | copying the stream into a buffer of the reported size yields exactly `ThumbnailRead` of the reference |
| MediaSession.Snapshot | Services/MediaSessionService.cs:94-104 | a missing title becomes "Unknown" and a missing artist "Unknown Artist", present ones are kept; playing exactly when the status is Playing (absent playback information gives false); the thumbnail is the best-effort read |
| MediaSession.Derive | Services/MediaSessionService.cs:70-116 | after a notification CurrentMedia is its payload; the only silent derivation is no session with nothing shown; a snapshot exists exactly when there is a session, the properties are not null and neither read threw |
| MediaSession.RunEndsOnLastNotification | Services/MediaSessionService.cs:70-116 | after any number of derivations, CurrentMedia is the payload of the last notification, or the starting snapshot if none was raised |
| MediaSession.RunWithoutSessionNotifiesAtMostOnce | Services/MediaSessionService.cs:72-79 | repeated derivations without a session notify once, with null, if a snapshot was showing, and never otherwise; they end with no snapshot |
| MediaSession.RunWithSessionNotifiesEveryTime | Services/MediaSessionService.cs:82-115 | with a session every derivation notifies, even when the snapshot did not change |
| MediaSession.SwapOps | Services/MediaSessionService.cs:42-55 | a session swap detaches the old session's handlers before it attaches the new session's, and performs exactly one operation per session present and nothing else |
| MediaSession.MediaSessionService.constructor | Services/MediaSessionService.cs:12-19 | a new service has no manager, session, snapshot, poll or handlers |
| MediaSession.MediaSessionService.Initialize | Services/MediaSessionService.cs:21-33 | the manager handler is attached (logged before the swap's handler operations); afterwards the poll runs, the swap and the derivation have used the manager's current session, and that session alone carries the session handlers |
| MediaSession.MediaSessionService.UpdateCurrentSession | Services/MediaSessionService.cs:40-58 | the old session's handlers are removed before the new session's are added (handler log order); the swap uses the manager's current session, or none without a manager; afterwards exactly that session carries the handlers; the derivation runs on it |
| MediaSession.MediaSessionService.SwapSession | Services/MediaSessionService.cs:42-55 | the old session's handlers are removed before the manager's current session is taken and given them; afterwards exactly that session carries them |
| MediaSession.MediaSessionService.UpdateMediaInfo | Services/MediaSessionService.cs:70-116 | CurrentMedia and the notification raised are those of `Derive`; the notification is appended to the log; the invariant (CurrentMedia is the last payload, at most one session subscribed) is kept |
| MediaSession.MediaSessionService.Dispose | Services/MediaSessionService.cs:139-159 | the first call stops the poll and detaches the session handlers, then the manager handler; a second call changes nothing |
| Window.ConnectButtonFor | MainWindow.xaml.cs:134-151 | enabled exactly when the process runs; "Discord Not Running" exactly when it does not, taking precedence over the connection; otherwise "Disconnect" exactly when connected and "Connect" exactly when not |
| Window.ConnectButtonDistinguishesStates | MainWindow.xaml.cs:134-151 | two situations show the same button exactly when they agree on process presence and, if it runs, on the connection |
| Window.ForwardAllOnePerNotification | MainWindow.xaml.cs:59-83 | forwarding notifications sends one client call per notification when connected and none otherwise; the last call is the one for the last notification |
| Window.PresenceReassertedEveryDerivation | MainWindow.xaml.cs:59-83 | while connected and a session exists, every derivation re-asserts the presence, and the last call sent is the one for the final snapshot |
| Window.MainWindow.constructor | MainWindow.xaml.cs:20-28 | both services are new and in their initial state: no client, nothing disposed, no poll, no handlers, no session, nothing logged; the box is unchecked and no monitor request has been made (the `Initialize()` call of line 29 is the separate step `Window.MainWindow.Initialize`) |
| Window.MainWindow.OnMediaInfoChanged | MainWindow.xaml.cs:59-83 | every notification, null included, is passed to `UpdatePresence` |
| Window.MainWindow.OnConnectionStateChanged | MainWindow.xaml.cs:112-124 | the button is refreshed; a true notification republishes CurrentMedia only when there is a snapshot; a false one never publishes |
| Window.MainWindow.Initialize | MainWindow.xaml.cs:29-57 | the check box shows the setting, and when that changed it the box's handler first stops and restarts the monitor; the media service starts on the first session and exactly the notification `Derive` gives is logged and forwarded; the monitor is then started with auto-connect exactly when launched at startup or the setting is on; the button is refreshed |
| Window.MainWindow.MediaChanged | Services/MediaSessionService.cs:60-68 | a properties change, playback change or poll tick re-derives the snapshot; the notification logged is exactly the one `Derive` gives, and exactly that is forwarded |
| Window.MainWindow.SessionChanged | Services/MediaSessionService.cs:35-38 | a session change swaps handlers (old detached before new attached, exactly the new session subscribed), re-derives on the new session, logs exactly the notification `Derive` gives, and forwards it; the poll, the manager handler and the disposed flag stay as they were |
| Window.MainWindow.ClientSignalled | MainWindow.xaml.cs:112-124 | a ready signal marks an existing client initialized, other signals keep the handle; the payload is notified, the button refreshed, and a ready signal republishes the current snapshot when there is one |
| Window.MainWindow.DiscordRunningChanged | MainWindow.xaml.cs:126-132 | a process-presence change only refreshes the button |
| Window.MainWindow.ConnectButtonClick | MainWindow.xaml.cs:153-163 | when connected the click disconnects (and the button then reads for "not connected"); otherwise it connects; never both; the disposed flag is untouched |
| Window.MainWindow.StartupCheckBoxChanged | MainWindow.xaml.cs:165-174 | the flag is stored, then the monitor is stopped before it is restarted with the new flag |
| Window.MainWindow.CloseForExit | MainWindow.xaml.cs:176-191 | on exit the media service is disposed (poll stopped, session then manager handlers detached, session and manager kept), then the presence service: with a client it clears, disposes, notifies false and refreshes the button; without one nothing is sent, notified or redrawn |

## Left out

- DiscordRpc.Truncate: a null string (returned unchanged by the source) is not modelled, because strings here are never null and every title and artist passed in is substituted. A limit below 3 is a precondition: the source throws for such a limit whenever the string is longer than the limit (a shorter one is returned first), and its only caller passes 128.
- DiscordRpc.DiscordRpcService.OnClientSignal: the model assumes `IsInitialized` becomes true when the client reports ready. The client library that really sets it is not part of this model. Signals from an earlier, already disposed client act on the current handle.
- The client library (`DiscordRpcClient`, `RichPresence`, `ConsoleLogger`, the client id constant): it is foreign code. Only the calls made on it are recorded, and any exception those calls throw is not modelled.
- Exceptions thrown by a `MediaInfoChanged` subscriber are not modelled; handlers are assumed not to throw. In the source, one thrown at the snapshot notification is caught by the derivation's catch clause, which then notifies null; one thrown at the null notification for missing properties (line 90) is caught too, and the catch clause then notifies null a second time; one thrown at the null notifications for no session or inside the catch clause escapes the derivation.
- Async execution, the timers' threads and `Dispatcher.Invoke`: concurrency is out of scope. Every handler and every poll tick is one atomic step, and the poll is another call to the derivation.
- MediaSession.MediaSessionService: the handlers on a session are a set, not the source's delegate lists, so the model cannot count a double subscription. The source never makes one: every swap removes both handlers from the old session before adding them to the new one (the handler log records that order), and `Dispose` only removes.
- MediaSession.GetThumbnail: stream sizes beyond .NET array limits, and the 32-bit cast of the size, are not modelled.
- A failure of the session manager request in `InitializeAsync` is not modelled. It would propagate out of the window's initialisation, which is not a recovered path.
- MediaSession.MediaSessionService.SwapSession, MediaSession.MediaSessionService.Dispose and Window.MainWindow.CloseForExit assume that the host calls outside any `try` succeed: `GetCurrentSession()` (Services/MediaSessionService.cs:49), the handler removals and additions (lines 45-46, 53-54) and the removals at disposal (lines 149-150, 155). Were one to throw, the source does not recover. A throw during a swap leaves `_currentSession` naming the old session, whose handlers are already gone, and no derivation runs, so the invariant that exactly the current session carries the handlers would not hold. A throw during disposal skips the manager detach and, on exit (MainWindow.xaml.cs:187-188), the presence service's `Dispose`, so the presence is never cleared. The model states none of these outcomes.
- Process monitoring (`StartDiscordMonitoring`, `StopDiscordMonitoring`, `IsDiscordRunning`, `DiscordRunningStateChanged`): the window calls these; they are not modelled. Process presence is a boolean input, and the monitor calls are a log of requests.
- The thumbnail file cache is not modelled: nothing in the modelled code writes or deletes such a file.
- Window.MainWindow.constructor: the source constructor calls `Initialize()` as its last statement (line 29). The model splits that call off: the constructor ends with the services created, and the caller runs `Initialize` as the next step. So the constructor's "box unchecked, no monitor request" describes the window just before line 29. Once `Initialize` has run, the box shows the setting and any monitor requests it makes have been logged.
- Window.MainWindow.Initialize: assumes the markup (MainWindow.xaml, not part of this model) declares the check box unchecked and wires `StartupCheckBox_Changed` to its Checked and Unchecked events; the registry write that handler makes through `StartupService` is not modelled.
- Services/SettingsService.cs and Services/StartupService.cs: JSON file and registry I/O. Only the flag they store is kept, as `runAtStartup`.
- App.xaml.cs (single-instance mutex, argument parsing) and Models/AppSettings.cs: OS glue and a one-field record. `IsStartupMode` is a constructor input.
- WPF rendering: panels, captions other than the connect button, `UpdateThumbnail` bitmap decoding, the tray icon, showing and hiding the window, and the minimise-to-tray branch of `Window_Closing`.
- `GC.SuppressFinalize` in both `Dispose` methods: it has no effect this model can observe.
