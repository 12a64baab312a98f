/** Input normalisation of the room server (cypher-server/index.js):
    `normalizeNonEmptyString` and `normalizeBeatPayload`, over the JavaScript
    values a client can send. */
module Payload {
  import opened Wrappers
  import opened JsText

  /** A value received from a client. Numbers are the integers the protocol
      carries (timestamps); arrays are objects keyed by their indices. */
  datatype JsValue =
    | Undefined
    | Null
    | Bool(b: bool)
    | Number(n: int)
    | Str(s: string)
    | Obj(fields: map<string, JsValue>)

  /** Property access `v[key]`: `undefined` when the key is absent. */
  function Prop(v: JsValue, key: string): JsValue
  {
    if v.Obj? && key in v.fields then v.fields[key] else Undefined
  }

  /** A beat as the server stores and broadcasts it. */
  datatype Beat = Beat(url: string, videoId: string, source: string)

  const MaxUrlLength: nat := 2048
  const MaxVideoIdLength: nat := 128
  const MaxSourceLength: nat := 64

  /** `s.slice(0, n)` for a non-negative `n`. */
  function Prefix(s: string, n: nat): (r: string)
    ensures r <= s && |r| == if n < |s| then n else |s|
  {
    if n < |s| then s[..n] else s
  }

  /** What normalisation guarantees of a field: non-empty, within the cap,
      and not starting with whitespace. */
  predicate IsNormalizedField(s: string, maxLength: nat)
  {
    0 < |s| <= maxLength && !IsJsWhitespace(s[0])
  }

  predicate IsNormalizedBeat(b: Beat)
  {
    IsNormalizedField(b.url, MaxUrlLength) &&
    IsNormalizedField(b.videoId, MaxVideoIdLength) &&
    IsNormalizedField(b.source, MaxSourceLength)
  }

  /** `normalizeNonEmptyString(value, maxLength)`: null for a non-string or a
      string that trims to empty (or a zero cap); otherwise the trimmed string
      cut to `maxLength` characters. */
  function NormalizeNonEmptyString(value: JsValue, maxLength: nat): (r: Option<string>)
    ensures r.None? <==> !value.Str? || Trim(value.s) == [] || maxLength == 0
    ensures r.Some? ==> IsNormalizedField(r.value, maxLength)
    ensures r.Some? ==> r.value <= Trim(value.s)
    ensures r.Some? ==> |r.value| == if |Trim(value.s)| < maxLength then |Trim(value.s)| else maxLength
  {
    if !value.Str? then None
    else
      var normalized := Prefix(Trim(value.s), maxLength);
      if |normalized| > 0 then Some(normalized) else None
  }

  /** A non-empty string that is already trimmed normalises to its first
      `maxLength` characters. */
  lemma {:induction false} NormalizeTrimmed(s: string, maxLength: nat)
    requires s != [] && Trim(s) == s
    ensures NormalizeNonEmptyString(Str(s), maxLength) ==
      if maxLength == 0 then None else Some(Prefix(s, maxLength))
  {
  }

  /** ... so one within the cap normalises to itself. */
  lemma {:induction false} NormalizeFixedPoint(s: string, maxLength: nat)
    requires s != [] && |s| <= maxLength && Trim(s) == s
    ensures NormalizeNonEmptyString(Str(s), maxLength) == Some(s)
  {
    NormalizeTrimmed(s, maxLength);
  }

  /** Normalising an already normalised string changes nothing when the value
      came out trimmed, i.e. when the cap did not cut into it. */
  lemma NormalizeIdempotent(v: JsValue, maxLength: nat)
    requires NormalizeNonEmptyString(v, maxLength).Some?
    requires |Trim(v.s)| <= maxLength
    ensures NormalizeNonEmptyString(Str(NormalizeNonEmptyString(v, maxLength).value), maxLength)
         == NormalizeNonEmptyString(v, maxLength)
  {
    TrimIdempotent(v.s);
  }

  /** `normalizeBeatPayload(beat)`: null unless the payload is an object whose
      `url`, `videoId` and `source` all normalise (caps 2048, 128, 64); on
      success exactly those three normalised fields. */
  function NormalizeBeatPayload(beat: JsValue): (r: Option<Beat>)
    ensures r.Some? <==>
      beat.Obj? &&
      NormalizeNonEmptyString(Prop(beat, "url"), MaxUrlLength).Some? &&
      NormalizeNonEmptyString(Prop(beat, "videoId"), MaxVideoIdLength).Some? &&
      NormalizeNonEmptyString(Prop(beat, "source"), MaxSourceLength).Some?
    ensures r.Some? ==>
      Some(r.value.url) == NormalizeNonEmptyString(Prop(beat, "url"), MaxUrlLength) &&
      Some(r.value.videoId) == NormalizeNonEmptyString(Prop(beat, "videoId"), MaxVideoIdLength) &&
      Some(r.value.source) == NormalizeNonEmptyString(Prop(beat, "source"), MaxSourceLength)
    ensures r.Some? ==> IsNormalizedBeat(r.value)
  {
    if !beat.Obj? then None
    else
      var url := NormalizeNonEmptyString(Prop(beat, "url"), MaxUrlLength);
      var videoId := NormalizeNonEmptyString(Prop(beat, "videoId"), MaxVideoIdLength);
      var source := NormalizeNonEmptyString(Prop(beat, "source"), MaxSourceLength);
      if url.None? || videoId.None? || source.None? then None
      else Some(Beat(url.value, videoId.value, source.value))
  }

  /** A payload missing any of the three fields is rejected, whatever else it holds. */
  lemma MissingFieldRejected(beat: JsValue, key: string)
    requires key == "url" || key == "videoId" || key == "source"
    requires beat.Obj? && key !in beat.fields
    ensures NormalizeBeatPayload(beat) == None
  {
  }
}
