/** The item page (src/apps/stable/pages/ItemDetail.tsx): which item it
    shows, its artwork links, its running time in minutes and the labels
    that depend on the item. */
module ItemDetail {
  import opened Js
  import opened ApiTypes
  import opened Lists
  import Text
  import LegacyApi
  import BitHarbor

  /** Ticks in one minute. */
  const TicksPerMinute: Number := 600000000.0

  /** The item shown: the first one with the route's id in the resume list
      followed by the recently added list (a list still loading counts as
      empty). */
  function DisplayedItem(continueWatching: Option<seq<MediaItem>>, recentlyAdded: Option<seq<MediaItem>>, id: string): (r: Option<MediaItem>)
    ensures r.Some? ==> r.value.id == id
    ensures r.None? <==> forall item :: item in continueWatching.GetOr([]) + recentlyAdded.GetOr([]) ==> item.id != id
  {
    Find(continueWatching.GetOr([]) + recentlyAdded.GetOr([]), (i: MediaItem) => i.id == id)
  }

  /** An item in the resume list wins over any item with the same id among
      the recently added ones; the latter list is consulted only when the
      former has no match. */
  lemma ResumeListFirst(continueWatching: seq<MediaItem>, recentlyAdded: seq<MediaItem>, id: string)
    ensures var p := (i: MediaItem) => i.id == id;
            DisplayedItem(Some(continueWatching), Some(recentlyAdded), id)
            == if Find(continueWatching, p).Some? then Find(continueWatching, p) else Find(recentlyAdded, p)
  {
    FindAppend(continueWatching, recentlyAdded, (i: MediaItem) => i.id == id);
  }

  /** `item.ImageTags?.Primary` is truthy. */
  predicate HasPrimary(item: MediaItem) {
    item.imageTags.Some? && "Primary" in item.imageTags.value && item.imageTags.value["Primary"] != ""
  }

  /** The poster link (300 wide), present exactly when the item has a
      primary image tag. */
  function PosterUrl(serverUrl: string, item: MediaItem): (r: Option<string>)
    ensures r.Some? <==> HasPrimary(item)
    ensures r.Some? ==> r.value == serverUrl + "/Items/" + item.id + "/Images/Primary?width=300&quality=90"
  {
    if HasPrimary(item) then
      var url := LegacyApi.ImageUrl(serverUrl, item.id, "Primary", Some(300));
      PosterLink(serverUrl, item.id);
      Some(url)
    else None
  }

  /** The backdrop link (1920 wide), under the same condition as the
      poster: the page tests the primary tag for both. */
  function BackdropUrl(serverUrl: string, item: MediaItem): (r: Option<string>)
    ensures r.Some? <==> HasPrimary(item)
    ensures r.Some? ==> r.value == serverUrl + "/Items/" + item.id + "/Images/Backdrop?width=1920&quality=90"
  {
    if HasPrimary(item) then
      var url := LegacyApi.ImageUrl(serverUrl, item.id, "Backdrop", Some(1920));
      BackdropLink(serverUrl, item.id);
      Some(url)
    else None
  }

  /** The legacy image URL of the 300-wide primary image. */
  lemma PosterLink(serverUrl: string, id: string)
    ensures LegacyApi.ImageUrl(serverUrl, id, "Primary", Some(300))
            == serverUrl + "/Items/" + id + "/Images/Primary?width=300&quality=90"
  {
    DigitsOf300();
    var tail := "/Images/" + "Primary" + "?width=" + "300" + "&quality=90";
    assert "/Images/" + "Primary" == "/Images/Primary";
    assert "/Images/Primary" + "?width=" == "/Images/Primary?width=";
    assert "/Images/Primary?width=" + "300" == "/Images/Primary?width=300";
    assert tail == "/Images/Primary?width=300&quality=90";
    AppendFive(serverUrl + "/Items/" + id, "/Images/", "Primary", "?width=", "300", "&quality=90");
  }

  /** The legacy image URL of the 1920-wide backdrop image. */
  lemma BackdropLink(serverUrl: string, id: string)
    ensures LegacyApi.ImageUrl(serverUrl, id, "Backdrop", Some(1920))
            == serverUrl + "/Items/" + id + "/Images/Backdrop?width=1920&quality=90"
  {
    DigitsOf1920();
    var tail := "/Images/" + "Backdrop" + "?width=" + "1920" + "&quality=90";
    assert "/Images/" + "Backdrop" == "/Images/Backdrop";
    assert "/Images/Backdrop" + "?width=" == "/Images/Backdrop?width=";
    assert "/Images/Backdrop?width=" + "1920" == "/Images/Backdrop?width=1920";
    assert tail == "/Images/Backdrop?width=1920&quality=90";
    AppendFive(serverUrl + "/Items/" + id, "/Images/", "Backdrop", "?width=", "1920", "&quality=90");
  }

  /** Appending five pieces one by one appends their concatenation. */
  lemma AppendFive(a: string, b: string, c: string, d: string, e: string, f: string)
    ensures a + b + c + d + e + f == a + (b + c + d + e + f)
  {
  }

  lemma DigitsOf1920()
    ensures Text.IntToString(1920) == "1920"
  {
    assert Text.NatToString(1) == "1";
    assert Text.NatToString(19) == "19";
    assert Text.NatToString(192) == "192";
  }

  lemma DigitsOf300()
    ensures Text.IntToString(300) == "300"
  {
    assert Text.NatToString(3) == "3";
    assert Text.NatToString(30) == "30";
  }

  /** `Math.floor(RunTimeTicks / 600000000)` when the ticks are truthy. */
  function RuntimeMinutes(ticks: Option<Number>): (r: Option<int>)
    ensures r.Some? <==> TruthyNumber(ticks)
    ensures r.Some? ==> r.value as real * TicksPerMinute <= ticks.value < (r.value + 1) as real * TicksPerMinute
  {
    if TruthyNumber(ticks) then Some((ticks.value / TicksPerMinute).Floor) else None
  }

  /** Minutes turned into ticks by the BitHarbor adapter read back as the
      same minutes; zero minutes leave no ticks and no running time. */
  lemma RuntimeRoundTrip(m: int)
    ensures RuntimeMinutes(BitHarbor.MinutesAsTicks(Some(m as real), None)) == if m == 0 then None else Some(m)
  {
    if m != 0 {
      var t := m as real * 60.0 * BitHarbor.TicksPerSecond;
      assert t / TicksPerMinute == m as real;
    }
  }

  /** `{runtime && <Chip …/>}`: the chip needs a non-zero running time. */
  predicate ShowsRuntimeChip(runtime: Option<int>) {
    runtime.Some? && runtime.value != 0
  }

  /** The running-time chip appears exactly for items of at least a minute
      (the ticks a page receives are never negative). */
  lemma RuntimeChipNeedsAMinute(ticks: Option<Number>)
    requires ticks.None? || ticks.value >= 0.0
    ensures ShowsRuntimeChip(RuntimeMinutes(ticks)) <==> ticks.Some? && ticks.value >= TicksPerMinute
  {
  }

  /** The play button reads 'Resume' exactly when some of the item has been
      played. */
  function PlayLabel(item: MediaItem): (text: string)
    ensures text == "Resume" <==> item.userData.Some? && TruthyNumber(item.userData.value.playedPercentage)
    ensures text in {"Resume", "Play"}
  {
    if item.userData.Some? && TruthyNumber(item.userData.value.playedPercentage) then "Resume" else "Play"
  }

  /** Season and episode numbers are shown only for episodes. */
  predicate ShowsEpisodeInfo(item: MediaItem) {
    item.itemType == "Episode"
  }

  /** A legacy item shows season and episode numbers exactly when the
      server sent the type "Episode"; a missing or empty type never does. */
  lemma LegacyEpisodeInfo(raw: LegacyApi.RawItem)
    ensures ShowsEpisodeInfo(LegacyApi.MapItem(raw)) <==> raw.itemType == Some("Episode")
  {
  }
}
