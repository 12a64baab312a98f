/** The client's link recogniser (cypher/app/page.tsx): `getYouTubeId`, which
    runs two regular expressions with JavaScript's leftmost-match and
    first-alternative-wins semantics, and `parseBeatInput`, which turns pasted
    text into a beat. */
module LinkParser {
  import opened Wrappers
  import opened JsText

  /** Length of a YouTube video id, the `{11}` of both patterns. */
  const IdLength: nat := 11

  /** `[0-9A-Za-z_-]`. */
  predicate IsIdChar(c: char)
  {
    ('0' <= c <= '9') || ('A' <= c <= 'Z') || ('a' <= c <= 'z') || c == '_' || c == '-'
  }

  /** A pattern of the form `(?:p1|p2|...)([0-9A-Za-z_-]{11})`, where each
      `p` is a literal; the capture group is the 11 id characters. */
  datatype Pattern = Pattern(prefixes: seq<string>)

  /** `/(?:youtube\.com\/watch\?v=|youtu\.be\/)([0-9A-Za-z_-]{11})/` */
  const WatchOrShort: Pattern := Pattern(["youtube.com/watch?v=", "youtu.be/"])
  /** `/youtube\.com\/embed\/([0-9A-Za-z_-]{11})/` */
  const Embed: Pattern := Pattern(["youtube.com/embed/"])
  /** The patterns in the order `getYouTubeId` tries them. */
  const YouTubePatterns: seq<Pattern> := [WatchOrShort, Embed]

  /** Eleven id characters start at index `j` of `s`. */
  predicate IdAt(s: string, j: int)
  {
    0 <= j && j + IdLength <= |s| && forall k :: j <= k < j + IdLength ==> IsIdChar(s[k])
  }

  /** The alternative `prefix` followed by an id matches at index `i`. */
  predicate AltMatchesAt(s: string, i: int, prefix: string)
  {
    OccursAt(s, prefix, i) && IdAt(s, i + |prefix|)
  }

  /** Some alternative of `p` matches at index `i`. */
  predicate MatchesAt(s: string, i: int, p: Pattern)
  {
    exists k :: 0 <= k < |p.prefixes| && AltMatchesAt(s, i, p.prefixes[k])
  }

  /** The index of the first alternative from `k` on that matches at `i`, or
      `|prefixes|` when none does. */
  function FirstAlt(s: string, i: int, prefixes: seq<string>, k: nat): (r: nat)
    requires k <= |prefixes|
    ensures k <= r <= |prefixes|
    ensures forall m :: k <= m < r ==> !AltMatchesAt(s, i, prefixes[m])
    ensures r < |prefixes| ==> AltMatchesAt(s, i, prefixes[r])
    decreases |prefixes| - k
  {
    if k == |prefixes| || AltMatchesAt(s, i, prefixes[k]) then k
    else FirstAlt(s, i, prefixes, k + 1)
  }

  /** The capture of a match at `i`: the alternatives are tried in order and
      the first that matches decides where the group starts. */
  function CaptureAt(s: string, i: int, prefixes: seq<string>): (r: Option<string>)
    ensures r.Some? <==> exists k :: 0 <= k < |prefixes| && AltMatchesAt(s, i, prefixes[k])
    ensures r.Some? ==>
      exists k :: 0 <= k < |prefixes| && AltMatchesAt(s, i, prefixes[k]) &&
        (forall m :: 0 <= m < k ==> !AltMatchesAt(s, i, prefixes[m])) &&
        r.value == s[i + |prefixes[k]|..i + |prefixes[k]| + IdLength]
    ensures r.Some? ==> |r.value| == IdLength && forall k :: 0 <= k < |r.value| ==> IsIdChar(r.value[k])
  {
    var k := FirstAlt(s, i, prefixes, 0);
    if k == |prefixes| then None
    else
      var j := i + |prefixes[k]|;
      Some(s[j..j + IdLength])
  }

  /** The leftmost index at or after `i` where `p` matches, as a regular
      expression search from `i` finds it. */
  function SearchFrom(s: string, p: Pattern, i: nat): (r: Option<nat>)
    ensures r.Some? ==> i <= r.value <= |s| && MatchesAt(s, r.value, p)
    ensures r.Some? ==> forall j :: i <= j < r.value ==> !MatchesAt(s, j, p)
    ensures r.None? ==> forall j :: i <= j <= |s| ==> !MatchesAt(s, j, p)
    decreases |s| + 1 - i
  {
    if i > |s| then None
    else if CaptureAt(s, i, p.prefixes).Some? then Some(i)
    else SearchFrom(s, p, i + 1)
  }

  /** `p` matches at index `i` of `s` and at no index before it. */
  predicate LeftmostMatch(s: string, p: Pattern, i: int)
  {
    0 <= i <= |s| && MatchesAt(s, i, p) && forall j :: 0 <= j < i ==> !MatchesAt(s, j, p)
  }

  /** `s.match(p)`: the capture group of the leftmost match, or null. */
  function Match(s: string, p: Pattern): (r: Option<string>)
    ensures r.Some? ==> |r.value| == IdLength && forall k :: 0 <= k < |r.value| ==> IsIdChar(r.value[k])
    ensures r.None? <==> forall j :: 0 <= j <= |s| ==> !MatchesAt(s, j, p)
    ensures r.Some? ==> exists i :: LeftmostMatch(s, p, i) && r == CaptureAt(s, i, p.prefixes)
  {
    var at := SearchFrom(s, p, 0);
    if at.None? then None else CaptureAt(s, at.value, p.prefixes)
  }

  /** The `for (const pattern of patterns)` loop: the first pattern that
      matches wins. */
  function FirstMatch(s: string, patterns: seq<Pattern>): (r: Option<string>)
    ensures r.Some? ==> |r.value| == IdLength && forall k :: 0 <= k < |r.value| ==> IsIdChar(r.value[k])
  {
    if patterns == [] then None
    else
      var m := Match(s, patterns[0]);
      if m.Some? then m else FirstMatch(s, patterns[1..])
  }

  /** `getYouTubeId(url)`: null, or exactly 11 characters of `[0-9A-Za-z_-]`. */
  function GetYouTubeId(url: string): (r: Option<string>)
    ensures r.Some? ==> |r.value| == IdLength && forall k :: 0 <= k < |r.value| ==> IsIdChar(r.value[k])
  {
    FirstMatch(url, YouTubePatterns)
  }

  /** When the watch/short pattern matches anywhere, its leftmost match
      decides the id, whatever follows in the string. */
  lemma GetYouTubeIdLeftmostWatchOrShort(url: string, i: nat)
    requires i <= |url| && MatchesAt(url, i, WatchOrShort)
    requires forall j :: 0 <= j < i ==> !MatchesAt(url, j, WatchOrShort)
    ensures CaptureAt(url, i, WatchOrShort.prefixes).Some?
    ensures GetYouTubeId(url) == CaptureAt(url, i, WatchOrShort.prefixes)
  {
    LeftmostIsFound(url, WatchOrShort, 0, i);
  }

  /** The embed pattern is tried only when the first pattern matches nowhere;
      then its leftmost match decides the id. */
  lemma GetYouTubeIdEmbedFallback(url: string, i: nat)
    requires forall j :: 0 <= j <= |url| ==> !MatchesAt(url, j, WatchOrShort)
    requires i <= |url| && MatchesAt(url, i, Embed)
    requires forall j :: 0 <= j < i ==> !MatchesAt(url, j, Embed)
    ensures CaptureAt(url, i, Embed.prefixes).Some?
    ensures GetYouTubeId(url) == CaptureAt(url, i, Embed.prefixes)
  {
    LeftmostIsFound(url, Embed, 0, i);
    assert Match(url, WatchOrShort).None?;
    assert YouTubePatterns[1..] == [Embed];
    assert FirstMatch(url, [Embed]) == Match(url, Embed) by {
      assert [Embed][1..] == [];
    }
  }

  /** No id is found exactly when neither pattern matches anywhere. */
  lemma GetYouTubeIdNone(url: string)
    ensures GetYouTubeId(url).None? <==>
      (forall j :: 0 <= j <= |url| ==> !MatchesAt(url, j, WatchOrShort)) &&
      (forall j :: 0 <= j <= |url| ==> !MatchesAt(url, j, Embed))
  {
    assert YouTubePatterns[1..] == [Embed];
    assert FirstMatch(url, [Embed]) == Match(url, Embed) by {
      assert [Embed][1..] == [];
    }
  }

  /** The search from `from` stops at the leftmost match at or after `from`. */
  lemma {:induction false} LeftmostIsFound(s: string, p: Pattern, from: nat, i: nat)
    requires from <= i <= |s| && MatchesAt(s, i, p)
    requires forall j :: from <= j < i ==> !MatchesAt(s, j, p)
    ensures SearchFrom(s, p, from) == Some(i)
    decreases i - from
  {
    if from < i {
      assert !MatchesAt(s, from, p);
      LeftmostIsFound(s, p, from + 1, i);
    }
  }

  /** A short link `youtu.be/<id>` yields its id. */
  lemma ShortLinkYieldsId(id: string)
    requires |id| == IdLength && forall k :: 0 <= k < |id| ==> IsIdChar(id[k])
    ensures GetYouTubeId("youtu.be/" + id) == Some(id)
  {
    var s := "youtu.be/" + id;
    assert s[0..9] == "youtu.be/";
    assert AltMatchesAt(s, 0, WatchOrShort.prefixes[1]);
    assert !AltMatchesAt(s, 0, WatchOrShort.prefixes[0]) by {
      if 20 <= |s| { assert s[5] == '.'; }
    }
    assert s[9..9 + IdLength] == id;
    GetYouTubeIdLeftmostWatchOrShort(s, 0);
  }

  datatype BeatSource = YouTube | SoundCloud

  /** A beat as the client builds it; `videoId` is present for YouTube only. */
  datatype ClientBeat = ClientBeat(url: string, source: BeatSource, videoId: Option<string>)

  /** `parseBeatInput(rawInput)`. `hostname` is what `new URL(input).hostname`
      gives for the trimmed input, or None when that constructor throws. */
  function ParseBeatInput(rawInput: string, hostname: Option<string>): (r: Option<ClientBeat>)
    ensures Trim(rawInput) == [] ==> r == None
    ensures r.Some? ==> r.value.url == Trim(rawInput) && r.value.url != []
    ensures r.Some? && r.value.source == YouTube <==>
      Trim(rawInput) != [] && GetYouTubeId(Trim(rawInput)).Some?
    ensures r.Some? && r.value.source == YouTube ==> r.value.videoId == GetYouTubeId(Trim(rawInput))
    ensures r.Some? && r.value.source == SoundCloud <==>
      Trim(rawInput) != [] && GetYouTubeId(Trim(rawInput)).None? &&
      hostname.Some? && Includes(hostname.value, "soundcloud.com")
    ensures r.Some? && r.value.source == SoundCloud ==> r.value.videoId == None
  {
    var input := Trim(rawInput);
    if input == [] then None
    else
      var ytId := GetYouTubeId(input);
      if ytId.Some? then Some(ClientBeat(input, YouTube, ytId))
      else if hostname.Some? && Includes(hostname.value, "soundcloud.com") then
        Some(ClientBeat(input, SoundCloud, None))
      else None
  }

  /** Input that is only whitespace is refused, and so is input with no
      YouTube id whose URL cannot be parsed. */
  lemma ParseBeatInputRefusals(rawInput: string, hostname: Option<string>)
    ensures (forall k :: 0 <= k < |rawInput| ==> IsJsWhitespace(rawInput[k])) ==>
      ParseBeatInput(rawInput, hostname) == None
    ensures GetYouTubeId(Trim(rawInput)).None? && hostname.None? ==>
      ParseBeatInput(rawInput, hostname) == None
  {
    TrimEmptyIff(rawInput);
  }
}
