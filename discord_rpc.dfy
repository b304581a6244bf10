/** The presence publisher and connection holder (Services/DiscordRpcService.cs).

    The presence-protocol client library is abstract: a handle that either
    does not exist or exists and may have reported ready, and a log of the
    calls made on client objects. */
module DiscordRpc {
  import opened Models

  /** Longest details or state string the presence protocol accepts. */
  const FieldLimit := 128
  /** The marker that replaces the cut-off tail of a truncated string. */
  const Ellipsis: Text := Utf16("...")
  /** The text put before the artist in the state line. */
  const ByPrefix: Text := Utf16("by ")

  datatype ActivityType = Listening

  /** The payload of a SetPresence call. */
  datatype RichPresence = RichPresence(kind: ActivityType, details: Text, state: Text)

  /** A call made on a client object. */
  datatype ClientCall =
    | InitializeClient
    | ClearPresence
    | SetPresence(presence: RichPresence)
    | DisposeClient

  /** The service's `_client` field: no client, or a client that is
      initialized once the library has reported ready. */
  datatype ClientHandle = NoClient | Client(initialized: bool)

  /** The signals a client raises: ready, closed, error. */
  datatype ClientSignal = Ready | Closed | Error

  /** Cut `value` to at most `maxLength` code units: short strings are kept,
      longer ones keep their first `maxLength - 3` code units followed by the
      ellipsis marker. The cut counts code units, so it may fall between the
      two halves of a surrogate pair. */
  function Truncate(value: Text, maxLength: int): (r: Text)
    requires maxLength >= |Ellipsis|
    ensures |value| <= maxLength ==> r == value
    ensures |value| > maxLength ==> && |r| == maxLength
                                    && r[..maxLength - 3] == value[..maxLength - 3]
                                    && r[maxLength - 3..] == Ellipsis
  {
    if |value| == 0 then value
    else if |value| <= maxLength then value
    else value[..maxLength - 3] + Ellipsis
  }

  /** Truncation never makes a string longer than the limit. */
  lemma TruncateFitsLimit(value: Text, maxLength: int)
    requires maxLength >= |Ellipsis|
    ensures |Truncate(value, maxLength)| <= maxLength
  {
  }

  /** Truncating twice with the same limit is the same as truncating once. */
  lemma TruncateIdempotent(value: Text, maxLength: int)
    requires maxLength >= |Ellipsis|
    ensures Truncate(Truncate(value, maxLength), maxLength) == Truncate(value, maxLength)
  {
  }

  /** The payload published for a playing snapshot. */
  function Payload(media: MediaInfo): (p: RichPresence)
    ensures p.kind == Listening
    ensures |p.details| <= FieldLimit && |p.state| <= FieldLimit
    ensures |media.title| <= FieldLimit ==> p.details == media.title
    ensures |media.title| > FieldLimit ==> p.details == media.title[..FieldLimit - 3] + Ellipsis
    ensures |media.artist| + 3 <= FieldLimit ==> p.state == ByPrefix + media.artist
    ensures |media.artist| + 3 > FieldLimit ==> p.state == (ByPrefix + media.artist)[..FieldLimit - 3] + Ellipsis
  {
    RichPresence(Listening, Truncate(media.title, FieldLimit), Truncate(ByPrefix + media.artist, FieldLimit))
  }

  /** The calls UpdatePresence makes on the client for `media`, when the
      client is (or is not) connected. */
  function PresenceCalls(connected: bool, media: Option<MediaInfo>): (calls: seq<ClientCall>)
    // nothing at all is sent without a connected client, one call otherwise
    ensures calls == [] <==> !connected
    ensures |calls| <= 1
    // a payload is set exactly when connected and playing; otherwise a clear
    ensures connected && media.Some? && media.value.isPlaying ==> calls == [SetPresence(Payload(media.value))]
    ensures connected && (media.None? || !media.value.isPlaying) ==> calls == [ClearPresence]
  {
    if !connected then []
    else if media.None? || !media.value.isPlaying then [ClearPresence]
    else [SetPresence(Payload(media.value))]
  }

  /** A 200-character title is cut to 125 characters and the marker; an
      artist "B" becomes the state "by B". */
  lemma LongTitleScenario()
    ensures var title := Utf16(seq(200, _ => 'A'));
      var calls := PresenceCalls(true, Some(MediaInfo(title, Utf16("B"), true, None)));
      && calls == [SetPresence(RichPresence(Listening, Utf16(seq(125, _ => 'A') + "..."), Utf16("by B")))]
      && |calls[0].presence.details| == 128
  {
    var title := Utf16(seq(200, _ => 'A'));
    assert title[..125] == Utf16(seq(125, _ => 'A'));
    Utf16Append(seq(125, _ => 'A'), "...");
    Utf16Append("by ", "B");
    assert "by " + "B" == "by B";
  }

  /** Lengths count code units: a title of 127 'A' and one character outside
      the Basic Multilingual Plane (U+1F3B5) is 129 units long, so it is cut
      although it has only 128 characters. */
  lemma SupplementaryCharacterCounted()
    ensures var title := Utf16(seq(127, _ => 'A') + "\U{1F3B5}");
      && |title| == 129
      && Truncate(title, FieldLimit) == Utf16(seq(125, _ => 'A') + "...")
  {
    var prefix := seq(127, _ => 'A');
    Utf16Append(prefix, "\U{1F3B5}");
    assert Units('\U{1F3B5}') == [0xD83C, 0xDFB5];
    var title := Utf16(prefix + "\U{1F3B5}");
    assert title[..125] == Utf16(seq(125, _ => 'A'));
    Utf16Append(seq(125, _ => 'A'), "...");
  }

  /** The cut may split a surrogate pair: with U+1F3B5 at character 125, the
      published details keep its high surrogate and drop the low one, so the
      marker follows a lone high surrogate. */
  lemma SurrogatePairSplit()
    ensures var title := Utf16(seq(124, _ => 'A') + "\U{1F3B5}" + "BBB");
      var details := Truncate(title, FieldLimit);
      && |title| == 129
      && |details| == 128
      && details[124] == 0xD83C
      && details[125..] == Utf16("...")
  {
    var prefix := seq(124, _ => 'A');
    Utf16Append(prefix + "\U{1F3B5}", "BBB");
    Utf16Append(prefix, "\U{1F3B5}");
    assert Units('\U{1F3B5}') == [0xD83C, 0xDFB5];
  }

  /** The service: the client handle, the disposed flag, and the logs of
      calls made on clients and of ConnectionStateChanged notifications. */
  class DiscordRpcService {
    var client: ClientHandle
    var disposed: bool
    ghost var sent: seq<ClientCall>     // calls on client objects, in order
    ghost var raised: seq<bool>         // ConnectionStateChanged payloads, in order

    constructor ()
      ensures client == NoClient && !disposed && sent == [] && raised == []
    {
      client := NoClient;
      disposed := false;
      sent := [];
      raised := [];
    }

    /** IsConnected: a client exists and has been initialized. */
    predicate IsConnected()
      reads this
      ensures IsConnected() <==> client == Client(true)
    {
      client.Client? && client.initialized
    }

    /** Connect: do nothing while any handle exists (even one that has closed
        or failed); otherwise create a client and initialize it. */
    method Connect()
      modifies this
      ensures old(client).Client? ==> unchanged(this)
      ensures old(client).NoClient? ==> && client == Client(false)
                                        && sent == old(sent) + [InitializeClient]
                                        && raised == old(raised)
      ensures disposed == old(disposed)
    {
      if client.Client? {
        return;
      }
      client := Client(false);
      sent := sent + [InitializeClient];
    }

    /** A signal from the client: ready marks it initialized and notifies
        true; closed and error notify false and leave the handle in place. */
    method OnClientSignal(signal: ClientSignal) returns (isConnected: bool)
      modifies this`client, this`raised
      ensures isConnected <==> signal == Ready
      ensures raised == old(raised) + [isConnected]
      ensures client == (if signal == Ready && old(client).Client? then Client(true) else old(client))
    {
      if signal == Ready && client.Client? {
        client := Client(true);
      }
      isConnected := signal == Ready;
      raised := raised + [isConnected];
    }

    /** Disconnect: with a handle, clear the presence, dispose the client,
        drop the handle and notify false; without one, do nothing. */
    method Disconnect() returns (notified: Option<bool>)
      modifies this`client, this`sent, this`raised
      ensures old(client).NoClient? ==> unchanged(this) && notified == None
      ensures old(client).Client? ==> && client == NoClient
                                      && sent == old(sent) + [ClearPresence, DisposeClient]
                                      && raised == old(raised) + [false]
                                      && notified == Some(false)
      ensures !IsConnected()
    {
      if client.NoClient? {
        return None;
      }
      sent := sent + [ClearPresence, DisposeClient];
      client := NoClient;
      raised := raised + [false];
      notified := Some(false);
    }

    /** UpdatePresence: publish `media` on a connected client. */
    method UpdatePresence(media: Option<MediaInfo>)
      modifies this`sent
      ensures sent == old(sent) + PresenceCalls(IsConnected(), media)
    {
      if !(client.Client? && client.initialized) {
        return;
      }
      if media.None? || !media.value.isPlaying {
        sent := sent + [ClearPresence];
        return;
      }
      var details := Truncate(media.value.title, FieldLimit);
      var state := Truncate(ByPrefix + media.value.artist, FieldLimit);
      sent := sent + [SetPresence(RichPresence(Listening, details, state))];
    }

    /** Dispose: the first call disconnects; later calls do nothing. */
    method Dispose() returns (notified: Option<bool>)
      modifies this
      ensures old(disposed) ==> unchanged(this) && notified == None
      ensures !old(disposed) ==> && disposed
                                 && client == NoClient
                                 && sent == old(sent) + (if old(client).Client? then [ClearPresence, DisposeClient] else [])
                                 && raised == old(raised) + (if old(client).Client? then [false] else [])
                                 && notified == (if old(client).Client? then Some(false) else None)
    {
      if disposed {
        return None;
      }
      disposed := true;
      notified := Disconnect();
    }
  }
}
