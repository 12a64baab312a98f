/** What the server makes of the beats the client sends: the client emits the
    result of `parseBeatInput` as the `add_beat` payload (cypher/app/page.tsx),
    and the server runs it through `normalizeBeatPayload`
    (cypher-server/index.js). */
module Interop {
  import opened Wrappers
  import opened JsText
  import opened Payload
  import opened LinkParser

  function SourceName(s: BeatSource): string
  {
    match s
    case YouTube => "youtube"
    case SoundCloud => "soundcloud"
  }

  /** The three payload keys are different strings (they differ in their
      first character). */
  lemma PayloadKeysDistinct()
    ensures "url" != "videoId" && "url" != "source" && "videoId" != "source"
  {
    assert "url"[0] == 'u' && "videoId"[0] == 'v' && "source"[0] == 's';
  }

  /** The object `socket.emit("add_beat", beat)` sends: `videoId` is a key
      only when the client set it. */
  function ToPayload(b: ClientBeat): JsValue
  {
    var base := map["url" := Str(b.url), "source" := Str(SourceName(b.source))];
    Obj(if b.videoId.Some? then base["videoId" := Str(b.videoId.value)] else base)
  }

  /** The three properties the server reads from a YouTube beat's payload. */
  lemma {:induction false} YouTubePayloadFields(url: string, id: string)
    ensures var p := ToPayload(ClientBeat(url, YouTube, Some(id)));
      p.Obj? && Prop(p, "url") == Str(url) && Prop(p, "videoId") == Str(id) && Prop(p, "source") == Str("youtube")
  {
    PayloadKeysDistinct();
  }

  /** A SoundCloud beat carries no `videoId`, so the server refuses every one
      the client produces. */
  lemma {:induction false} SoundCloudBeatRejected(rawInput: string, hostname: Option<string>)
    requires ParseBeatInput(rawInput, hostname).Some?
    requires ParseBeatInput(rawInput, hostname).value.source == SoundCloud
    ensures NormalizeBeatPayload(ToPayload(ParseBeatInput(rawInput, hostname).value)) == None
  {
    var b := ParseBeatInput(rawInput, hostname).value;
    assert "videoId" !in ToPayload(b).fields;
  }

  /** Id characters are never whitespace, so an id is its own trim. */
  lemma {:induction false} IdTrimsToItself(id: string)
    requires forall k :: 0 <= k < |id| ==> IsIdChar(id[k])
    ensures Trim(id) == id
  {
    forall k | 0 <= k < |id| ensures !IsJsWhitespace(id[k]) {
      var n := id[k] as int;
      assert 0x2D <= n <= 0x7A;
    }
    TrimNoWhitespace(id);
  }

  /** A YouTube beat the client produces is accepted by the server's
      normaliser with the same id and source, and with the same url unless
      the url is longer than the server's cap of 2048 characters. */
  lemma {:induction false} YouTubeBeatAccepted(rawInput: string, hostname: Option<string>)
    requires ParseBeatInput(rawInput, hostname).Some?
    requires ParseBeatInput(rawInput, hostname).value.source == YouTube
    ensures
      var b := ParseBeatInput(rawInput, hostname).value;
      b.videoId.Some? &&
      NormalizeBeatPayload(ToPayload(b)) == Some(Beat(Prefix(b.url, MaxUrlLength), b.videoId.value, "youtube"))
    ensures
      var b := ParseBeatInput(rawInput, hostname).value;
      |b.url| <= MaxUrlLength ==> NormalizeBeatPayload(ToPayload(b)) == Some(Beat(b.url, b.videoId.value, "youtube"))
  {
    var b := ParseBeatInput(rawInput, hostname).value;
    TrimIdempotent(rawInput);
    IdTrimsToItself(b.videoId.value);
    ClientYouTubeBeatAccepted(b.url, b.videoId.value);
  }

  /** The same for any beat of the shape `parseBeatInput` gives a YouTube
      link: a trimmed url and a trimmed id within the id cap. */
  lemma {:induction false} ClientYouTubeBeatAccepted(url: string, id: string)
    requires url != [] && Trim(url) == url
    requires 0 < |id| <= MaxVideoIdLength && Trim(id) == id
    ensures NormalizeBeatPayload(ToPayload(ClientBeat(url, YouTube, Some(id))))
         == Some(Beat(Prefix(url, MaxUrlLength), id, "youtube"))
  {
    NormalizeTrimmed(url, MaxUrlLength);
    NormalizeFixedPoint(id, MaxVideoIdLength);
    YouTubePayloadFields(url, id);
    YouTubeSourceNormalizes();
  }

  /** The source name "youtube" normalises to itself. */
  lemma YouTubeSourceNormalizes()
    ensures NormalizeNonEmptyString(Str("youtube"), MaxSourceLength) == Some("youtube")
  {
    assert NoWhitespace("youtube");
    TrimNoWhitespace("youtube");
    NormalizeFixedPoint("youtube", MaxSourceLength);
  }
}
