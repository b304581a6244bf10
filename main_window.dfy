/** The composition root (MainWindow.xaml.cs), kept to its decisions: it
    forwards media notifications to the presence publisher, republishes the
    current snapshot when a connection becomes ready, drives the connect
    button, and asks the process monitor to start and stop.

    Whether the presence client's process is running is an input to every
    step that needs it; the monitor itself is not part of this model, only
    the requests made of it. Each event handler runs as one atomic step. */
module Window {
  import opened Models
  import opened MediaSession
  import opened DiscordRpc

  /** The connect button: its caption and whether it can be clicked. */
  datatype ConnectButton = ConnectButton(caption: string, enabled: bool)

  /** A request made of the process monitor. */
  datatype MonitorRequest = StartMonitoring(autoConnect: bool) | StopMonitoring

  const NotRunningLabel := "Discord Not Running"
  const DisconnectLabel := "Disconnect"
  const ConnectLabel := "Connect"

  /** UpdateConnectButtonState: the button for the current process presence
      and connection. Each caption names exactly one situation, and "not
      running" wins over "connected". */
  function ConnectButtonFor(discordRunning: bool, connected: bool): (b: ConnectButton)
    ensures b.enabled <==> discordRunning
    ensures b.caption == NotRunningLabel <==> !discordRunning
    ensures b.caption == DisconnectLabel <==> discordRunning && connected
    ensures b.caption == ConnectLabel <==> discordRunning && !connected
  {
    if !discordRunning then ConnectButton(NotRunningLabel, false)
    else if connected then ConnectButton(DisconnectLabel, true)
    else ConnectButton(ConnectLabel, true)
  }

  /** The button tells the situations apart: two situations show the same
      button exactly when the process presence agrees and, if the process
      runs, the connection state agrees too. */
  lemma ConnectButtonDistinguishesStates(running1: bool, connected1: bool, running2: bool, connected2: bool)
    ensures ConnectButtonFor(running1, connected1) == ConnectButtonFor(running2, connected2)
      <==> running1 == running2 && (running1 ==> connected1 == connected2)
  {
  }

  /** The client calls made by forwarding each notification, in order, to
      UpdatePresence while the connection state stays `connected`. */
  function ForwardAll(connected: bool, notifications: seq<Option<MediaInfo>>): seq<ClientCall>
    decreases |notifications|
  {
    if notifications == [] then []
    else PresenceCalls(connected, notifications[0]) + ForwardAll(connected, notifications[1..])
  }

  /** Forwarding sends one call per notification when connected and none
      otherwise, and the last call is the one for the last notification. */
  lemma {:induction false} ForwardAllOnePerNotification(connected: bool, notifications: seq<Option<MediaInfo>>)
    ensures |ForwardAll(connected, notifications)| == (if connected then |notifications| else 0)
    ensures connected && notifications != [] ==>
      ForwardAll(connected, notifications)[|notifications| - 1]
        == PresenceCalls(connected, notifications[|notifications| - 1])[0]
    decreases |notifications|
  {
    if notifications != [] {
      ForwardAllOnePerNotification(connected, notifications[1..]);
    }
  }

  /** While connected and a session exists, every derivation re-asserts the
      presence on the client, and the last call sent is the presence for the
      snapshot the service ends with. */
  lemma PresenceReassertedEveryDerivation(session: SessionId, current: Option<MediaInfo>, answers: seq<SessionRead>)
    ensures var r := Run(Some(session), current, answers);
      && |ForwardAll(true, r.1)| == |answers|
      && (answers != [] ==> ForwardAll(true, r.1)[|answers| - 1] == PresenceCalls(true, r.0)[0])
  {
    var r := Run(Some(session), current, answers);
    RunWithSessionNotifiesEveryTime(session, current, answers);
    RunEndsOnLastNotification(Some(session), current, answers);
    ForwardAllOnePerNotification(true, r.1);
  }

  /** The window: the two services it owns, the connect button, the startup
      check box and the settings value behind it, and the requests made of
      the process monitor. */
  class MainWindow {
    const media: MediaSessionService
    const discord: DiscordRpcService
    const startupMode: bool                // launched with --startup
    var runAtStartup: bool                 // the settings collaborator's flag
    var startupChecked: bool               // StartupCheckBox.IsChecked
    var button: Option<ConnectButton>      // None: as the markup declares it
    ghost var monitorRequests: seq<MonitorRequest>

    ghost predicate Valid()
      reads this, media
    {
      media.Valid()
    }

    constructor (settingRunAtStartup: bool, launchedAtStartup: bool)
      ensures Valid() && fresh(media) && fresh(discord)
      ensures media.currentSession == None && media.currentMedia == None && !media.hasManager
      ensures !media.disposed && !media.polling && !media.managerSubscribed && media.subscriptions == {}
      ensures media.notifications == [] && media.handlerLog == []
      ensures discord.client == NoClient && !discord.disposed && discord.sent == [] && discord.raised == []
      ensures startupMode == launchedAtStartup && runAtStartup == settingRunAtStartup
      ensures !startupChecked && button == None && monitorRequests == []
    {
      media := new MediaSessionService();
      discord := new DiscordRpcService();
      startupMode := launchedAtStartup;
      runAtStartup := settingRunAtStartup;
      startupChecked := false;
      button := None;
      monitorRequests := [];
    }

    /** OnMediaInfoChanged: every notification, null included, goes to
        UpdatePresence. */
    method OnMediaInfoChanged(mediaInfo: Option<MediaInfo>)
      modifies discord`sent
      ensures discord.sent == old(discord.sent) + PresenceCalls(discord.IsConnected(), mediaInfo)
    {
      discord.UpdatePresence(mediaInfo);
    }

    /** OnConnectionStateChanged: refresh the button and, on a true
        notification with a snapshot present, republish that snapshot. A
        false notification never publishes. */
    method OnConnectionStateChanged(isConnected: bool, discordRunning: bool)
      modifies this`button, discord`sent
      ensures button == Some(ConnectButtonFor(discordRunning, discord.IsConnected()))
      ensures discord.sent == old(discord.sent)
        + (if isConnected && media.currentMedia.Some? then PresenceCalls(discord.IsConnected(), media.currentMedia) else [])
    {
      button := Some(ConnectButtonFor(discordRunning, discord.IsConnected()));
      if isConnected && media.currentMedia.Some? {
        discord.UpdatePresence(media.currentMedia);
      }
    }

    /** Initialize: check the box from the settings, start observing media
        (forwarding what it notifies), ask the monitor to start with
        auto-connect when launched at startup or when the setting is on,
        and refresh the button. Checking the box from code changes its
        state, which runs StartupCheckBox_Changed before anything else. */
    method Initialize(discordRunning: bool, firstSession: Option<SessionId>, firstRead: SessionRead)
      requires Valid()
      modifies this, media, discord`sent
      ensures Valid()
      ensures startupChecked == runAtStartup && runAtStartup == old(runAtStartup)
      ensures monitorRequests == old(monitorRequests)
        + (if old(startupChecked) != runAtStartup then [StopMonitoring, StartMonitoring(runAtStartup)] else [])
        + [StartMonitoring(startupMode || runAtStartup)]
      ensures button == Some(ConnectButtonFor(discordRunning, discord.IsConnected()))
      ensures media.hasManager && media.managerSubscribed && media.polling && media.currentSession == firstSession
      ensures media.disposed == old(media.disposed)
      ensures media.subscriptions == Subscribed(firstSession)
      ensures media.handlerLog == old(media.handlerLog) + [AttachManager] + SwapOps(old(media.currentSession), firstSession)
      ensures media.currentMedia == Derive(firstSession, old(media.currentMedia), firstRead).media
      ensures media.notifications == old(media.notifications)
        + Raised(Derive(firstSession, old(media.currentMedia), firstRead).notified)
      ensures discord.sent == old(discord.sent)
        + ForwardAll(discord.IsConnected(), media.notifications[|old(media.notifications)|..])
    {
      if startupChecked != runAtStartup {
        StartupCheckBoxChanged(runAtStartup);
      }
      var notified := media.Initialize(firstSession, firstRead);
      if notified.Some? {
        OnMediaInfoChanged(notified.value);
      }
      var autoConnect := startupMode || runAtStartup;
      monitorRequests := monitorRequests + [StartMonitoring(autoConnect)];
      button := Some(ConnectButtonFor(discordRunning, discord.IsConnected()));
      assert media.notifications[|old(media.notifications)|..] == Raised(notified);
    }

    /** A properties change, a playback change or a poll tick: re-derive the
        snapshot and forward the notification it raises. */
    method MediaChanged(read: SessionRead)
      requires Valid()
      modifies media`currentMedia, media`notifications, discord`sent
      ensures Valid()
      ensures media.currentMedia == Derive(media.currentSession, old(media.currentMedia), read).media
      ensures media.notifications == old(media.notifications)
        + Raised(Derive(media.currentSession, old(media.currentMedia), read).notified)
      ensures discord.sent == old(discord.sent)
        + ForwardAll(discord.IsConnected(), media.notifications[|old(media.notifications)|..])
    {
      var notified := media.UpdateMediaInfo(read);
      if notified.Some? {
        OnMediaInfoChanged(notified.value);
      }
      assert media.notifications[|old(media.notifications)|..] == Raised(notified);
    }

    /** The manager reports a new current session: swap handlers, re-derive,
        and forward the notification. */
    method SessionChanged(next: Option<SessionId>, read: SessionRead)
      requires Valid()
      modifies media, discord`sent
      ensures Valid()
      ensures media.currentSession == (if media.hasManager then next else None)
      ensures media.subscriptions == Subscribed(media.currentSession)
      ensures media.handlerLog == old(media.handlerLog) + SwapOps(old(media.currentSession), media.currentSession)
      ensures media.hasManager == old(media.hasManager) && media.managerSubscribed == old(media.managerSubscribed)
      ensures media.polling == old(media.polling) && media.disposed == old(media.disposed)
      ensures media.currentMedia == Derive(media.currentSession, old(media.currentMedia), read).media
      ensures media.notifications == old(media.notifications)
        + Raised(Derive(media.currentSession, old(media.currentMedia), read).notified)
      ensures discord.sent == old(discord.sent)
        + ForwardAll(discord.IsConnected(), media.notifications[|old(media.notifications)|..])
    {
      var notified := media.UpdateCurrentSession(next, read);
      if notified.Some? {
        OnMediaInfoChanged(notified.value);
      }
      assert media.notifications[|old(media.notifications)|..] == Raised(notified);
    }

    /** A ready, closed or error signal from the client, delivered through
        ConnectionStateChanged. On ready, the current snapshot is republished
        at once. */
    method ClientSignalled(signal: ClientSignal, discordRunning: bool)
      requires Valid()
      modifies this`button, discord`client, discord`raised, discord`sent
      ensures Valid()
      ensures discord.raised == old(discord.raised) + [signal == Ready]
      ensures discord.client == (if signal == Ready && old(discord.client).Client? then Client(true) else old(discord.client))
      ensures button == Some(ConnectButtonFor(discordRunning, discord.IsConnected()))
      ensures discord.sent == old(discord.sent)
        + (if signal == Ready && media.currentMedia.Some? then PresenceCalls(discord.IsConnected(), media.currentMedia) else [])
    {
      var isConnected := discord.OnClientSignal(signal);
      OnConnectionStateChanged(isConnected, discordRunning);
    }

    /** OnDiscordRunningStateChanged: only the button changes. */
    method DiscordRunningChanged(discordRunning: bool)
      modifies this`button
      ensures button == Some(ConnectButtonFor(discordRunning, discord.IsConnected()))
    {
      button := Some(ConnectButtonFor(discordRunning, discord.IsConnected()));
    }

    /** ConnectButton_Click: disconnect when connected, connect otherwise,
        never both. */
    method ConnectButtonClick(discordRunning: bool)
      requires Valid()
      modifies this`button, discord
      ensures Valid()
      ensures discord.disposed == old(discord.disposed)
      ensures old(discord.IsConnected()) ==>
        && discord.client == NoClient
        && discord.sent == old(discord.sent) + [ClearPresence, DisposeClient]
        && discord.raised == old(discord.raised) + [false]
        && button == Some(ConnectButtonFor(discordRunning, false))
      ensures !old(discord.IsConnected()) && old(discord.client).NoClient? ==>
        && discord.client == Client(false)
        && discord.sent == old(discord.sent) + [InitializeClient]
        && discord.raised == old(discord.raised)
        && button == old(button)
      ensures !old(discord.IsConnected()) && old(discord.client).Client? ==>
        unchanged(discord) && button == old(button)
    {
      if discord.IsConnected() {
        var notified := discord.Disconnect();
        if notified.Some? {
          OnConnectionStateChanged(notified.value, discordRunning);
        }
      } else {
        discord.Connect();
      }
    }

    /** StartupCheckBox_Changed: store the flag, then stop the monitor before
        restarting it with the new auto-connect flag. */
    method StartupCheckBoxChanged(isChecked: bool)
      modifies this`startupChecked, this`runAtStartup, this`monitorRequests
      ensures startupChecked == isChecked && runAtStartup == isChecked
      ensures monitorRequests == old(monitorRequests) + [StopMonitoring, StartMonitoring(isChecked)]
    {
      startupChecked := isChecked;
      runAtStartup := isChecked;
      monitorRequests := monitorRequests + [StopMonitoring];
      monitorRequests := monitorRequests + [StartMonitoring(isChecked)];
    }

    /** Window_Closing while exiting: dispose the media service, then the
        presence service, whose disconnect notification refreshes the button. */
    method CloseForExit(discordRunning: bool)
      requires Valid()
      modifies this`button, media, discord
      ensures Valid()
      ensures media.disposed && discord.disposed
      ensures !old(media.disposed) ==> && !media.polling && !media.managerSubscribed && media.subscriptions == {}
                                       && media.handlerLog == old(media.handlerLog)
                                            + (if old(media.currentSession).Some? then [DetachSession(old(media.currentSession).value)] else [])
                                            + (if old(media.hasManager) then [DetachManager] else [])
      ensures old(media.disposed) ==> unchanged(media)
      ensures media.currentSession == old(media.currentSession) && media.hasManager == old(media.hasManager)
      ensures !old(discord.disposed) ==> discord.client == NoClient && !discord.IsConnected()
      ensures old(discord.disposed) ==> unchanged(discord) && button == old(button)
      ensures !old(discord.disposed) && old(discord.client).Client? ==>
        && discord.sent == old(discord.sent) + [ClearPresence, DisposeClient]
        && discord.raised == old(discord.raised) + [false]
        && button == Some(ConnectButtonFor(discordRunning, false))
      ensures !old(discord.disposed) && old(discord.client).NoClient? ==>
        && discord.sent == old(discord.sent)
        && discord.raised == old(discord.raised)
        && button == old(button)
      ensures media.currentMedia == old(media.currentMedia) && media.notifications == old(media.notifications)
    {
      media.Dispose();
      var notified := discord.Dispose();
      if notified.Some? {
        OnConnectionStateChanged(notified.value, discordRunning);
      }
    }
  }
}
