/** The video player (src/components/player/VideoPlayer.tsx): the stream
    link it plays, the clock text under the slider, when it reports
    progress, and the playback state its control handlers update. */
module VideoPlayer {
  import opened Js
  import opened Text
  import opened ApiTypes
  import BitHarbor

  /** The player's own table from item type to route segment. */
  const TypeRouteMap: map<string, string> := map[
    "movie" := "movies", "tv" := "tv", "music" := "music",
    "podcast" := "podcasts", "video" := "videos", "personal" := "personal"]

  /** `typeRouteMap[itemType] || 'movies'` */
  function StreamRoute(itemType: string): string {
    if itemType in TypeRouteMap && TypeRouteMap[itemType] != "" then TypeRouteMap[itemType] else "movies"
  }

  /** The player's table agrees with the adapter's routes on every media
      type, and any other item type plays from the movie endpoints. */
  lemma StreamRouteMatchesAdapter(itemType: string)
    ensures ParseMediaType(itemType).Some? ==>
              StreamRoute(itemType) == RouteName(BitHarbor.GetTypeRoute(ParseMediaType(itemType).value))
    ensures ParseMediaType(itemType).None? ==> StreamRoute(itemType) == "movies"
  {
    if ParseMediaType(itemType).Some? {
      var t := ParseMediaType(itemType).value;
      MediaTypeNames(t, itemType);
    }
  }

  /** `${backendUrl}/${typeRoute}/stream?file_hash=${itemId}`, with the
      configured backend or the local default. */
  function StreamUrl(configuredUrl: Option<string>, itemType: string, itemId: string): (url: string)
    ensures TruthyText(configuredUrl) ==> StartsWith(url, configuredUrl.value + "/")
    ensures !TruthyText(configuredUrl) ==> StartsWith(url, BitHarbor.DefaultBaseUrl + "/")
    ensures |url| >= |itemId| && url[|url| - |itemId|..] == itemId
    ensures var base := if TruthyText(configuredUrl) then configuredUrl.value else BitHarbor.DefaultBaseUrl;
            url == base + "/" + StreamRoute(itemType) + "/stream?file_hash=" + itemId
  {
    var base := OrText(configuredUrl, Some(BitHarbor.DefaultBaseUrl)).value;
    var url := base + "/" + StreamRoute(itemType) + "/stream?file_hash=" + itemId;
    assert url[..|base + "/"|] == base + "/";
    url
  }

  /** The player streams a media type from the adapter's route for that
      type, and anything else from the movie route, always passing the item
      id as the `file_hash` query parameter. */
  lemma StreamUrlUsesAdapterRoute(configuredUrl: Option<string>, itemType: string, itemId: string)
    ensures var base := if TruthyText(configuredUrl) then configuredUrl.value else BitHarbor.DefaultBaseUrl;
            var route := if ParseMediaType(itemType).Some?
                         then RouteName(BitHarbor.GetTypeRoute(ParseMediaType(itemType).value)) else "movies";
            StreamUrl(configuredUrl, itemType, itemId) == base + "/" + route + "/stream?file_hash=" + itemId
  {
    StreamRouteMatchesAdapter(itemType);
  }

  /** `Math.trunc`, which the remainder operator rounds with. */
  function Trunc(x: real): int {
    if x >= 0.0 then x.Floor else -((-x).Floor)
  }

  /** The `%` operator on numbers: the remainder keeps the dividend's sign. */
  function JsRem(a: real, b: real): real
    requires b != 0.0
  {
    a - b * Trunc(a / b) as real
  }

  /** Hours, minutes and seconds as `formatTime` computes them. */
  function ClockFields(seconds: Number): (int, int, int) {
    ((seconds / 3600.0).Floor, (JsRem(seconds, 3600.0) / 60.0).Floor, JsRem(seconds, 60.0).Floor)
  }

  /** `n.toString().padStart(2, '0')` */
  function TwoDigits(n: int): string {
    PadStart(IntToString(n), 2, '0')
  }

  /** The pieces `formatTime` joins with ':': hours (when there are any),
      minutes (padded only after hours) and padded seconds. */
  function ClockPieces(seconds: Number): seq<string> {
    var (h, m, s) := ClockFields(seconds);
    FieldPieces(h, m, s)
  }

  function FieldPieces(h: int, m: int, s: int): seq<string> {
    if h > 0 then [IntToString(h), TwoDigits(m), TwoDigits(s)] else [IntToString(m), TwoDigits(s)]
  }

  /** `formatTime(seconds)`: 'h:mm:ss' from an hour on, 'm:ss' below. */
  function FormatTime(seconds: Number): string {
    Join(ClockPieces(seconds), ':')
  }

  /** For a playback position, the fields are a whole-second clock reading:
      hours, then minutes and seconds below sixty. */
  lemma ClockFieldsSpec(seconds: Number)
    requires seconds >= 0.0
    ensures var (h, m, s) := ClockFields(seconds);
            && h >= 0 && 0 <= m < 60 && 0 <= s < 60
            && h * 3600 + m * 60 + s == seconds.Floor
  {
    var f := seconds.Floor;
    FloorDivide(seconds, 3600);
    RemainderFloor(seconds, 3600);
    RemainderFloor(seconds, 60);
    FloorDivide(JsRem(seconds, 3600.0), 60);
    WholeSecondsSplit(f);
  }

  /** Whole seconds split into hours, minutes below sixty and seconds below
      sixty. */
  lemma WholeSecondsSplit(f: int)
    requires f >= 0
    ensures 0 <= (f % 3600) / 60 < 60 && 0 <= f % 60 < 60
    ensures f == 3600 * (f / 3600) + 60 * ((f % 3600) / 60) + f % 60
  {
    var r := f % 3600;
    assert f == 3600 * (f / 3600) + r;
    assert r == 60 * (r / 60) + r % 60;
    assert r % 60 == f % 60;
  }

  /** The remainder of a non-negative number is non-negative, and its whole
      part is the remainder of the number's whole part. */
  lemma RemainderFloor(x: real, d: int)
    requires x >= 0.0 && d in {60, 3600}
    ensures JsRem(x, d as real) >= 0.0
    ensures JsRem(x, d as real).Floor == x.Floor % d
  {
    FloorDivide(x, d);
    var q := x.Floor / d;
    assert Trunc(x / d as real) == q;
    assert JsRem(x, d as real) == x - (q * d) as real;
  }

  /** Dividing a non-negative number and rounding down equals dividing its
      whole part. */
  lemma FloorDivide(x: real, d: int)
    requires x >= 0.0 && d in {60, 3600}
    ensures (x / d as real).Floor == x.Floor / d
  {
    var q := x.Floor / d;
    assert q as real * d as real <= x < (q + 1) as real * d as real;
  }

  /** The clock text reads back as the whole seconds it shows: splitting it
      at ':' and reading the pieces as base-sixty digits gives
      `Math.floor(seconds)`, with hours present exactly from 3600 on. */
  lemma FormatTimeRoundTrip(seconds: Number)
    requires seconds >= 0.0
    ensures |Split(FormatTime(seconds), ':')| == if seconds >= 3600.0 then 3 else 2
    ensures var pieces := Split(FormatTime(seconds), ':');
            && (forall i :: 0 <= i < |pieces| ==> AllDigits(pieces[i]))
            && ClockValue(pieces) == seconds.Floor
  {
    var pieces := ClockPieces(seconds);
    ClockPiecesSpec(seconds);
    forall i | 0 <= i < |pieces|
      ensures ':' !in pieces[i]
    {
      NoColon(pieces[i]);
    }
    SplitJoin(pieces, ':');
  }

  /** The pieces are digit strings whose base-sixty value is the whole
      seconds, three of them exactly from an hour on. */
  lemma ClockPiecesSpec(seconds: Number)
    requires seconds >= 0.0
    ensures var pieces := ClockPieces(seconds);
            && |pieces| == (if seconds >= 3600.0 then 3 else 2)
            && (forall i :: 0 <= i < |pieces| ==> AllDigits(pieces[i]))
            && ClockValue(pieces) == seconds.Floor
  {
    ClockFieldsSpec(seconds);
    var (h, m, s) := ClockFields(seconds);
    HoursShown(seconds);
    FieldPiecesSpec(h, m, s);
  }

  /** There are whole hours exactly from 3600 seconds on. */
  lemma HoursShown(seconds: Number)
    requires seconds >= 0.0
    ensures (seconds / 3600.0).Floor > 0 <==> seconds >= 3600.0
  {
  }

  /** Printed fields read back as the clock value they stand for. */
  lemma FieldPiecesSpec(h: nat, m: nat, s: nat)
    ensures var pieces := FieldPieces(h, m, s);
            && |pieces| == (if h > 0 then 3 else 2)
            && (forall i :: 0 <= i < |pieces| ==> AllDigits(pieces[i]))
            && ClockValue(pieces) == h * 3600 + m * 60 + s
  {
    var pieces := FieldPieces(h, m, s);
    if h > 0 {
      HourPieces(h, m, s);
      ReadThree(pieces, h, m, s);
    } else {
      MinutePieces(m, s);
      ReadTwo(pieces, m, s);
    }
  }

  /** From an hour on, the pieces are the printed hours, minutes and seconds. */
  lemma HourPieces(h: nat, m: nat, s: nat)
    requires h > 0
    ensures var p := FieldPieces(h, m, s);
            && |p| == 3
            && AllDigits(p[0]) && DigitsValue(p[0]) == h
            && AllDigits(p[1]) && DigitsValue(p[1]) == m
            && AllDigits(p[2]) && DigitsValue(p[2]) == s
  {
    HourPiece(h, m, s);
    PaddedPiece(h, m, s, 1, m);
    PaddedPiece(h, m, s, 2, s);
  }

  /** The hours piece is the hours printed. */
  lemma HourPiece(h: nat, m: nat, s: nat)
    requires h > 0
    ensures var p := FieldPieces(h, m, s);
            |p| == 3 && AllDigits(p[0]) && DigitsValue(p[0]) == h
  {
    NatToStringRoundTrip(h);
  }

  /** The minutes and seconds pieces after the hours are their padded
      values. */
  lemma PaddedPiece(h: nat, m: nat, s: nat, i: nat, n: nat)
    requires h > 0 && ((i == 1 && n == m) || (i == 2 && n == s))
    ensures var p := FieldPieces(h, m, s);
            |p| == 3 && AllDigits(p[i]) && DigitsValue(p[i]) == n
  {
    assert FieldPieces(h, m, s)[i] == TwoDigits(n);
    TwoDigitsValue(n);
  }

  /** Below an hour, the pieces are the printed minutes and seconds. */
  lemma MinutePieces(m: nat, s: nat)
    ensures var p := FieldPieces(0, m, s);
            && |p| == 2
            && AllDigits(p[0]) && DigitsValue(p[0]) == m
            && AllDigits(p[1]) && DigitsValue(p[1]) == s
  {
    var p := FieldPieces(0, m, s);
    assert p[0] == NatToString(m) && p[1] == TwoDigits(s);
    NatToStringRoundTrip(m);
    TwoDigitsValue(s);
  }

  /** Two digit pieces read as minutes and seconds. */
  lemma ReadTwo(p: seq<string>, m: nat, s: nat)
    requires |p| == 2
    requires AllDigits(p[0]) && DigitsValue(p[0]) == m
    requires AllDigits(p[1]) && DigitsValue(p[1]) == s
    ensures forall i :: 0 <= i < |p| ==> AllDigits(p[i])
    ensures ClockValue(p) == m * 60 + s
  {
    var first := p[..1];
    assert first[..0] == [] && first[0] == p[0];
    assert ClockValue(first) == DigitsValue(p[0]);
    assert p[..|p| - 1] == first;
  }

  /** Three digit pieces read as hours, minutes and seconds. */
  lemma ReadThree(p: seq<string>, h: nat, m: nat, s: nat)
    requires |p| == 3
    requires AllDigits(p[0]) && DigitsValue(p[0]) == h
    requires AllDigits(p[1]) && DigitsValue(p[1]) == m
    requires AllDigits(p[2]) && DigitsValue(p[2]) == s
    ensures forall i :: 0 <= i < |p| ==> AllDigits(p[i])
    ensures ClockValue(p) == h * 3600 + m * 60 + s
  {
    ReadTwo(p[..2], h, m);
  }

  /** A clock field below sixty prints as two digits of its value. */
  lemma TwoDigitsValue(n: nat)
    ensures AllDigits(TwoDigits(n)) && DigitsValue(TwoDigits(n)) == n
  {
    NatToStringRoundTrip(n);
    ZeroPaddedValue(NatToString(n), 2);
  }

  predicate AllDigits(s: string) {
    forall k :: 0 <= k < |s| ==> '0' <= s[k] <= '9'
  }

  /** A digit string has no ':'. */
  lemma NoColon(s: string)
    requires AllDigits(s)
    ensures ':' !in s
  {
  }

  /** Reads 'a:b:c' as (a * 60 + b) * 60 + c. */
  function ClockValue(pieces: seq<string>): int {
    if pieces == [] then 0
    else
      ClockValue(pieces[..|pieces| - 1]) * 60 + DigitsValue(pieces[|pieces| - 1])
  }

  /** `Math.floor(newTime) % 10 === 0` */
  predicate ReportsAt(time: Number) {
    time.Floor % 10 == 0
  }

  /** Progress goes out throughout the first second of every ten-second
      stretch and nowhere else, so the reports repeat every ten seconds. */
  lemma ReportsEveryTenSeconds(time: Number)
    ensures ReportsAt(time) <==> ReportsAt(time + 10.0)
    ensures ReportsAt(time) <==> exists n: int {:trigger n * 10} :: (n * 10) as real <= time < (n * 10 + 1) as real
  {
    var f := time.Floor;
    assert (time + 10.0).Floor == f + 10;
    if ReportsAt(time) {
      var n := f / 10;
      assert (n * 10) as real <= time < (n * 10 + 1) as real;
    }
  }

  /** The playback state the player's handlers update, and the calls it
      made to its two callbacks. */
  class Player {
    var isPlaying: bool
    var currentTime: Number
    var volume: Number
    var isMuted: bool
    /** The positions passed to `onProgressUpdate`, oldest first. */
    var progressReports: seq<Number>
    /** How often `onPlaybackEnd` was called. */
    var endNotices: nat

    /** A paused player at the resume position (0 when none is given), at
        full volume and not muted. */
    constructor(startPosition: Option<Number>)
      ensures !isPlaying && currentTime == Coalesce(startPosition, 0.0)
      ensures volume == 1.0 && !isMuted
      ensures progressReports == [] && endNotices == 0
    {
      isPlaying := false;
      currentTime := Coalesce(startPosition, 0.0);
      volume := 1.0;
      isMuted := false;
      progressReports := [];
      endNotices := 0;
    }

    /** `handlePlayPause`: flips between playing and paused. */
    method PlayPause()
      modifies this
      ensures isPlaying == !old(isPlaying)
      ensures currentTime == old(currentTime) && volume == old(volume) && isMuted == old(isMuted)
      ensures progressReports == old(progressReports) && endNotices == old(endNotices)
    {
      isPlaying := !isPlaying;
    }

    /** `handleTimeUpdate`: follows the element's position and reports it
        when its whole seconds are a multiple of ten. */
    method TimeUpdate(newTime: Number)
      modifies this
      ensures currentTime == newTime
      ensures progressReports == old(progressReports) + (if ReportsAt(newTime) then [newTime] else [])
      ensures isPlaying == old(isPlaying) && volume == old(volume) && isMuted == old(isMuted)
      ensures endNotices == old(endNotices)
    {
      currentTime := newTime;
      if newTime.Floor % 10 == 0 {
        progressReports := progressReports + [newTime];
      }
    }

    /** `handleSeek`: jumps to the slider's position and always reports it. */
    method Seek(newTime: Number)
      modifies this
      ensures currentTime == newTime
      ensures progressReports == old(progressReports) + [newTime]
      ensures isPlaying == old(isPlaying) && volume == old(volume) && isMuted == old(isMuted)
      ensures endNotices == old(endNotices)
    {
      currentTime := newTime;
      progressReports := progressReports + [newTime];
    }

    /** `handleVolumeChange`: the slider's percentage becomes the volume,
        and the player is muted exactly when that is zero. */
    method VolumeChange(percent: Number)
      modifies this
      ensures volume == percent / 100.0
      ensures isMuted <==> percent == 0.0
      ensures isPlaying == old(isPlaying) && currentTime == old(currentTime)
      ensures progressReports == old(progressReports) && endNotices == old(endNotices)
    {
      volume := percent / 100.0;
      isMuted := volume == 0.0;
    }

    /** `handleMuteToggle`: flips muting and leaves the volume alone. */
    method MuteToggle()
      modifies this
      ensures isMuted == !old(isMuted)
      ensures volume == old(volume) && isPlaying == old(isPlaying) && currentTime == old(currentTime)
      ensures progressReports == old(progressReports) && endNotices == old(endNotices)
    {
      isMuted := !isMuted;
    }

    /** `handleEnded`: playback stops and the end is announced once. */
    method Ended()
      modifies this
      ensures !isPlaying
      ensures endNotices == old(endNotices) + 1
      ensures currentTime == old(currentTime) && volume == old(volume) && isMuted == old(isMuted)
      ensures progressReports == old(progressReports)
    {
      isPlaying := false;
      endNotices := endNotices + 1;
    }
  }

  /** Pressing play twice, or mute twice, restores the state: each handler
      undoes itself. */
  method ToggleTwiceRestores(p: Player)
    modifies p
    ensures p.isPlaying == old(p.isPlaying) && p.isMuted == old(p.isMuted)
    ensures p.volume == old(p.volume) && p.currentTime == old(p.currentTime)
  {
    p.PlayPause();
    p.PlayPause();
    p.MuteToggle();
    p.MuteToggle();
  }
}
