/** The media observer (Services/MediaSessionService.cs): it follows the host's
    current media session and re-derives the CurrentMedia snapshot on every
    push notification and every poll tick.

    The host media API is an oracle: each step receives what the host answers
    on that step (which session is current, whether the properties and the
    playback information could be read, what the thumbnail stream delivers). */
module MediaSession {
  import opened Models

  /** Identity of a host session object, as handed out by the session manager. */
  type SessionId = nat

  /** The host's playback status values. */
  datatype PlaybackStatus = Closed | Opened | Changing | Stopped | Playing | Paused

  /** What the host thumbnail stream does when it is read: whether it opens,
      the size it reports, and the bytes it actually delivers. */
  datatype ThumbnailStream = ThumbnailStream(opens: bool, size: nat, loadable: seq<byte>)

  /** The media properties of a session; each field may be missing. */
  datatype MediaProperties = MediaProperties(
    title: Option<Text>,
    artist: Option<Text>,
    thumbnail: Option<ThumbnailStream>
  )

  /** The answer to the media-properties read: an exception, null, or properties. */
  datatype PropertiesRead = PropertiesFailed | NoProperties | Properties(properties: MediaProperties)

  /** The answer to the playback-information read: an exception, null, or a status. */
  datatype PlaybackRead = PlaybackFailed | NoPlaybackInfo | PlaybackInfo(status: PlaybackStatus)

  /** Everything the host answers during one derivation. */
  datatype SessionRead = SessionRead(properties: PropertiesRead, playback: PlaybackRead)

  /** The outcome of one derivation: the new CurrentMedia, and the payload of
      the MediaInfoChanged notification raised, if one was raised. */
  datatype Derivation = Derivation(media: Option<MediaInfo>, notified: Option<Option<MediaInfo>>)

  /** Operations on host event handlers, in the order they are performed. */
  datatype HandlerOp =
    | AttachSession(session: SessionId)   // MediaPropertiesChanged and PlaybackInfoChanged added
    | DetachSession(session: SessionId)   // both removed again
    | AttachManager                       // CurrentSessionChanged added
    | DetachManager                       // CurrentSessionChanged removed

  const UnknownTitle: Text := Utf16("Unknown")
  const UnknownArtist: Text := Utf16("Unknown Artist")

  /** The notifications a derivation raised, as a sequence of zero or one payloads. */
  function Raised(notified: Option<Option<MediaInfo>>): (s: seq<Option<MediaInfo>>)
    ensures |s| <= 1
    ensures s == [] <==> notified.None?
    ensures notified.Some? ==> s[0] == notified.value
  {
    if notified.Some? then [notified.value] else []
  }

  /** The sessions that carry our handlers when exactly `session` is subscribed. */
  function Subscribed(session: Option<SessionId>): (m: set<SessionId>)
    ensures |m| <= 1
    ensures forall id :: id in m <==> session == Some(id)
  {
    if session.Some? then {session.value} else {}
  }

  /** The bytes a best-effort thumbnail read yields: nothing for a missing
      reference, a stream that does not open, or a stream that delivers fewer
      bytes than it reports; otherwise the first `size` bytes it delivers. */
  function ThumbnailRead(thumbnailRef: Option<ThumbnailStream>): (r: Option<seq<byte>>)
    ensures r.Some? <==> thumbnailRef.Some? && thumbnailRef.value.opens
                         && thumbnailRef.value.size <= |thumbnailRef.value.loadable|
    ensures r.Some? ==> |r.value| == thumbnailRef.value.size && r.value <= thumbnailRef.value.loadable
  {
    match thumbnailRef
    case None => None
    case Some(stream) =>
      if !stream.opens || |stream.loadable| < stream.size then None
      else Some(stream.loadable[..stream.size])
  }

  /** GetThumbnailAsync: open the stream, allocate a buffer of the reported
      size, load and copy the bytes into it. Every failure yields no thumbnail. */
  method GetThumbnail(thumbnailRef: Option<ThumbnailStream>) returns (r: Option<seq<byte>>)
    ensures r == ThumbnailRead(thumbnailRef)
  {
    if thumbnailRef.None? {
      return None;
    }
    var stream := thumbnailRef.value;
    if !stream.opens {
      return None;  // OpenReadAsync threw
    }
    var bytes := new byte[stream.size];
    var loaded := if stream.size <= |stream.loadable| then stream.size else |stream.loadable|;
    if loaded < bytes.Length {
      return None;  // ReadBytes threw: fewer bytes loaded than the buffer holds
    }
    var i := 0;
    while i < bytes.Length
      invariant 0 <= i <= bytes.Length
      invariant bytes[..i] == stream.loadable[..i]
    {
      bytes[i] := stream.loadable[i];
      i := i + 1;
    }
    assert bytes[..] == bytes[..i];
    return Some(bytes[..]);
  }

  /** The snapshot built from readable properties: placeholders for a missing
      title or artist, playing exactly when the status is Playing. */
  function Snapshot(properties: MediaProperties, playback: PlaybackRead): (m: MediaInfo)
    ensures m.isPlaying <==> playback == PlaybackInfo(Playing)
    ensures properties.title.Some? ==> m.title == properties.title.value
    ensures properties.title.None? ==> m.title == UnknownTitle
    ensures properties.artist.Some? ==> m.artist == properties.artist.value
    ensures properties.artist.None? ==> m.artist == UnknownArtist
    ensures m.thumbnail == ThumbnailRead(properties.thumbnail)
  {
    MediaInfo(
      if properties.title.Some? then properties.title.value else UnknownTitle,
      if properties.artist.Some? then properties.artist.value else UnknownArtist,
      playback.PlaybackInfo? && playback.status == Playing,
      ThumbnailRead(properties.thumbnail))
  }

  /** One re-derivation of CurrentMedia on session `session`, from the
      previous snapshot `current` and what the host answers. */
  function Derive(session: Option<SessionId>, current: Option<MediaInfo>, read: SessionRead): (d: Derivation)
    // after a notification, CurrentMedia is its payload
    ensures d.notified.Some? ==> d.media == d.notified.value
    // the only silent derivation is "no session, and nothing was shown"
    ensures d.notified.None? <==> session.None? && current.None?
    // a snapshot exists exactly when a session answered both reads
    ensures d.media.Some? <==> session.Some? && read.properties.Properties? && !read.playback.PlaybackFailed?
    ensures d.media.Some? ==> d.media.value == Snapshot(read.properties.properties, read.playback)
  {
    if session.None? then
      if current.Some? then Derivation(None, Some(None)) else Derivation(None, None)
    else if read.properties.PropertiesFailed? || read.playback.PlaybackFailed? then
      Derivation(None, Some(None))
    else if read.properties.NoProperties? then
      Derivation(None, Some(None))
    else
      var m := Snapshot(read.properties.properties, read.playback);
      Derivation(Some(m), Some(Some(m)))
  }

  /** Successive derivations on one session, as the poll timer and the push
      notifications trigger them: the final snapshot and every notification. */
  function Run(session: Option<SessionId>, current: Option<MediaInfo>, answers: seq<SessionRead>)
    : (r: (Option<MediaInfo>, seq<Option<MediaInfo>>))
    decreases |answers|
  {
    if answers == [] then (current, [])
    else
      var d := Derive(session, current, answers[0]);
      var rest := Run(session, d.media, answers[1..]);
      (rest.0, Raised(d.notified) + rest.1)
  }

  /** The snapshot shown after a series of notifications: the last payload, or
      `initial` when nothing was notified. */
  function LastNotified(initial: Option<MediaInfo>, notifications: seq<Option<MediaInfo>>): Option<MediaInfo>
  {
    if notifications == [] then initial else notifications[|notifications| - 1]
  }

  /** After any run of derivations, CurrentMedia is the payload of the last
      notification, or the starting snapshot if none was raised. */
  lemma {:induction false} RunEndsOnLastNotification(session: Option<SessionId>, current: Option<MediaInfo>, answers: seq<SessionRead>)
    ensures Run(session, current, answers).0 == LastNotified(current, Run(session, current, answers).1)
    decreases |answers|
  {
    if answers != [] {
      var d := Derive(session, current, answers[0]);
      RunEndsOnLastNotification(session, d.media, answers[1..]);
    }
  }

  /** With no session, repeated derivations notify at most once, with a null
      payload, and only when a snapshot was showing. */
  lemma {:induction false} RunWithoutSessionNotifiesAtMostOnce(current: Option<MediaInfo>, answers: seq<SessionRead>)
    ensures var r := Run(None, current, answers);
      && |r.1| == (if current.Some? && answers != [] then 1 else 0)
      && (forall k :: 0 <= k < |r.1| ==> r.1[k] == None)
      && (answers != [] ==> r.0 == None)
    decreases |answers|
  {
    if answers != [] {
      RunWithoutSessionNotifiesAtMostOnce(None, answers[1..]);
    }
  }

  /** With a session, every derivation notifies, even when the snapshot did
      not change. */
  lemma {:induction false} RunWithSessionNotifiesEveryTime(session: SessionId, current: Option<MediaInfo>, answers: seq<SessionRead>)
    ensures |Run(Some(session), current, answers).1| == |answers|
    decreases |answers|
  {
    if answers != [] {
      var d := Derive(Some(session), current, answers[0]);
      RunWithSessionNotifiesEveryTime(session, d.media, answers[1..]);
    }
  }

  /** The media session service: the session it follows, the handlers it has
      attached, the poll timer and the published snapshot. */
  class MediaSessionService {
    var hasManager: bool                  // the session manager has been acquired
    var managerSubscribed: bool           // our CurrentSessionChanged handler is attached
    var polling: bool                     // the 2-second poll timer is running
    var currentSession: Option<SessionId>
    var subscriptions: set<SessionId> // sessions carrying our two session handlers
    var currentMedia: Option<MediaInfo>
    var disposed: bool
    ghost var notifications: seq<Option<MediaInfo>>  // MediaInfoChanged payloads, in order
    ghost var handlerLog: seq<HandlerOp>             // handler attach/detach operations, in order

    /** The object invariant: CurrentMedia is what was last notified, at most
        one session carries our handlers and, until disposal, exactly the
        current one does. */
    ghost predicate Valid()
      reads this
    {
      && currentMedia == LastNotified(None, notifications)
      && subscriptions <= Subscribed(currentSession)
      && |subscriptions| <= 1
      && (!disposed ==> subscriptions == Subscribed(currentSession))
      && (managerSubscribed ==> hasManager)
    }

    constructor ()
      ensures Valid()
      ensures !hasManager && !managerSubscribed && !polling && !disposed
      ensures currentSession == None && currentMedia == None
      ensures notifications == [] && handlerLog == []
    {
      hasManager, managerSubscribed, polling := false, false, false;
      currentSession := None;
      subscriptions := {};
      currentMedia := None;
      disposed := false;
      notifications := [];
      handlerLog := [];
    }

    /** InitializeAsync: acquire the manager, attach the session-changed
        handler, start the poll, then follow the manager's current session. */
    method Initialize(next: Option<SessionId>, read: SessionRead) returns (notified: Option<Option<MediaInfo>>)
      requires Valid()
      modifies this
      ensures Valid()
      ensures hasManager && managerSubscribed && polling && disposed == old(disposed)
      ensures currentSession == next && subscriptions == Subscribed(next)
      ensures handlerLog == old(handlerLog) + [AttachManager] + SwapOps(old(currentSession), next)
      ensures var d := Derive(next, old(currentMedia), read);
        currentMedia == d.media && notified == d.notified
      ensures notifications == old(notifications) + Raised(notified)
    {
      hasManager := true;
      managerSubscribed := true;
      handlerLog := handlerLog + [AttachManager];
      polling := true;
      notified := UpdateCurrentSession(next, read);
    }

    /** UpdateCurrentSessionAsync: detach from the old session, fetch the
        manager's current session, attach to it, then re-derive. */
    method UpdateCurrentSession(next: Option<SessionId>, read: SessionRead) returns (notified: Option<Option<MediaInfo>>)
      requires Valid()
      modifies this
      ensures Valid()
      ensures currentSession == (if hasManager then next else None)
      ensures subscriptions == Subscribed(currentSession)
      ensures handlerLog == old(handlerLog) + SwapOps(old(currentSession), currentSession)
      ensures var d := Derive(currentSession, old(currentMedia), read);
        currentMedia == d.media && notified == d.notified
      ensures notifications == old(notifications) + Raised(notified)
      ensures hasManager == old(hasManager) && managerSubscribed == old(managerSubscribed)
      ensures polling == old(polling) && disposed == old(disposed)
    {
      SwapSession(next);
      notified := UpdateMediaInfo(read);
    }

    /** The handler swap of UpdateCurrentSessionAsync: remove both handlers
        from the old session, take the manager's current session, and add
        both handlers to it. */
    method SwapSession(next: Option<SessionId>)
      requires Valid()
      modifies this`subscriptions, this`handlerLog, this`currentSession
      ensures Valid()
      ensures currentSession == (if hasManager then next else None)
      ensures subscriptions == Subscribed(currentSession)
      ensures handlerLog == old(handlerLog) + SwapOps(old(currentSession), currentSession)
    {
      if currentSession.Some? {
        subscriptions := subscriptions - {currentSession.value};
        handlerLog := handlerLog + [DetachSession(currentSession.value)];
      }
      assert subscriptions == {};
      currentSession := if hasManager then next else None;
      if currentSession.Some? {
        subscriptions := subscriptions + {currentSession.value};
        handlerLog := handlerLog + [AttachSession(currentSession.value)];
      }
      assert subscriptions == Subscribed(currentSession);
    }

    /** UpdateMediaInfoAsync: re-derive CurrentMedia from the current session
        and raise MediaInfoChanged as the three paths of the source do. */
    method UpdateMediaInfo(read: SessionRead) returns (notified: Option<Option<MediaInfo>>)
      requires Valid()
      modifies this`currentMedia, this`notifications
      ensures Valid()
      ensures var d := Derive(currentSession, old(currentMedia), read);
        currentMedia == d.media && notified == d.notified
      ensures notifications == old(notifications) + Raised(notified)
    {
      if currentSession.None? {
        notified := None;
        if currentMedia.Some? {
          currentMedia := None;
          notified := Some(None);
          notifications := notifications + [None];
        }
        return;
      }
      if read.properties.PropertiesFailed? || read.playback.PlaybackFailed? {
        // a host read threw: the catch clause
        currentMedia := None;
        notified := Some(None);
        notifications := notifications + [None];
        return;
      }
      if read.properties.NoProperties? {
        currentMedia := None;
        notified := Some(None);
        notifications := notifications + [None];
        return;
      }
      var properties := read.properties.properties;
      var isPlaying := read.playback.PlaybackInfo? && read.playback.status == Playing;
      var thumbnail := GetThumbnail(properties.thumbnail);
      var newMedia := MediaInfo(
        if properties.title.Some? then properties.title.value else UnknownTitle,
        if properties.artist.Some? then properties.artist.value else UnknownArtist,
        isPlaying,
        thumbnail);
      currentMedia := Some(newMedia);
      notified := Some(Some(newMedia));
      notifications := notifications + [Some(newMedia)];
    }

    /** Dispose: on the first call stop the poll and detach every handler;
        later calls do nothing. */
    method Dispose()
      requires Valid()
      modifies this
      ensures Valid()
      ensures old(disposed) ==> unchanged(this)
      ensures !old(disposed) ==> && disposed && !polling && !managerSubscribed
                                 && subscriptions == {}
                                 && handlerLog == old(handlerLog)
                                      + (if old(currentSession).Some? then [DetachSession(old(currentSession).value)] else [])
                                      + (if old(hasManager) then [DetachManager] else [])
      ensures currentSession == old(currentSession) && currentMedia == old(currentMedia)
      ensures notifications == old(notifications) && hasManager == old(hasManager)
    {
      if disposed {
        return;
      }
      disposed := true;
      polling := false;
      if currentSession.Some? {
        subscriptions := subscriptions - {currentSession.value};
        handlerLog := handlerLog + [DetachSession(currentSession.value)];
      }
      if hasManager {
        managerSubscribed := false;
        handlerLog := handlerLog + [DetachManager];
      }
    }
  }

  /** The handler operations of a session swap: detach from the old session
      first, then attach to the new one. */
  function SwapOps(previous: Option<SessionId>, next: Option<SessionId>): (ops: seq<HandlerOp>)
    ensures |ops| == (if previous.Some? then 1 else 0) + (if next.Some? then 1 else 0)
    ensures previous.Some? ==> ops != [] && ops[0] == DetachSession(previous.value)
    ensures next.Some? ==> ops != [] && ops[|ops| - 1] == AttachSession(next.value)
  {
    (if previous.Some? then [DetachSession(previous.value)] else [])
    + (if next.Some? then [AttachSession(next.value)] else [])
  }
}
