/** The placeholder artwork of the mock server (src/mocks/images.ts). An
    image is modelled by the values its SVG template interpolates: size,
    gradient id, colours and texts; the surrounding markup is fixed text. */
module MockImages {
  import opened Text

  /** Background, accent and text colour of a poster. */
  datatype Palette = Palette(bg: string, accent: string, text: string)

  /** The per-item poster colours. */
  const PosterPalettes: map<string, Palette> := map[
    "movie-1" := Palette("#1a1a2e", "#16213e", "#e94560"),
    "movie-2" := Palette("#0f3460", "#16213e", "#e94560"),
    "movie-10" := Palette("#2d1b00", "#5c3d2e", "#d4af37"),
    "movie-11" := Palette("#1a1a1a", "#2d2d2d", "#ff6b35"),
    "movie-12" := Palette("#ff1493", "#ff69b4", "#ffffff"),
    "episode-1" := Palette("#1e3a2e", "#2d5a3d", "#7fb069"),
    "series-1" := Palette("#2c1810", "#4a2817", "#d4a574"),
    "series-2" := Palette("#1a2634", "#2d4356", "#4a90e2")]

  const DefaultPalette := Palette("#1a1a1a", "#2d2d2d", "#ffffff")

  /** The per-item backdrop colours. */
  const BackdropColors: map<string, string> := map[
    "movie-1" := "#16213e", "movie-2" := "#0f3460", "movie-10" := "#5c3d2e",
    "movie-11" := "#2d2d2d", "movie-12" := "#ff69b4", "episode-1" := "#2d5a3d",
    "series-1" := "#4a2817", "series-2" := "#2d4356"]

  const DefaultBackdropColor := "#1a1a1a"

  /** The values a poster's SVG is filled with. */
  datatype Poster = Poster(
    width: nat, height: nat, gradientId: string, palette: Palette,
    title: string, typeLabel: string, badge: string)

  /** The values a backdrop's SVG is filled with. */
  datatype Backdrop = Backdrop(width: nat, height: nat, gradientId: string, color: string, title: string)

  /** `title.split(' ').slice(0, 2).join(' ')` */
  function FirstTwoWords(title: string): string {
    var words := Split(title, ' ');
    Join(words[..if |words| < 2 then |words| else 2], ' ')
  }

  /** The badge in the poster's corner. */
  function Badge(itemType: string): (b: string)
    ensures b == "4K" <==> itemType == "Movie"
    ensures b == "EP" <==> itemType == "Episode"
    ensures b in {"4K", "EP", "TV"}
  {
    if itemType == "Movie" then "4K" else if itemType == "Episode" then "EP" else "TV"
  }

  /** `generatePosterSVG`: a 300×450 poster in the item's colours, or the
      default ones for an item without an entry, titled with the first two
      words of the title. */
  function GeneratePoster(itemId: string, title: string, itemType: string): (p: Poster)
    ensures p.width == 300 && p.height == 450
    ensures p.gradientId == "grad-" + itemId
    ensures itemId in PosterPalettes ==> p.palette == PosterPalettes[itemId]
    ensures itemId !in PosterPalettes ==> p.palette == DefaultPalette
    ensures p.typeLabel == itemType && p.badge == Badge(itemType)
    ensures p.title == FirstTwoWords(title)
    ensures StartsWith(title, p.title) && (|Split(title, ' ')| <= 2 ==> p.title == title)
  {
    FirstTwoWordsOfTitle(title);
    var palette := if itemId in PosterPalettes then PosterPalettes[itemId] else DefaultPalette;
    Poster(300, 450, "grad-" + itemId, palette, FirstTwoWords(title), itemType, Badge(itemType))
  }

  /** `generateBackdropSVG`: a 1920×1080 backdrop showing the full title. */
  function GenerateBackdrop(itemId: string, title: string): (b: Backdrop)
    ensures b.width == 1920 && b.height == 1080
    ensures b.gradientId == "backdrop-grad-" + itemId
    ensures b.color == (if itemId in BackdropColors then BackdropColors[itemId] else DefaultBackdropColor)
    ensures b.title == title
  {
    Backdrop(1920, 1080, "backdrop-grad-" + itemId,
      if itemId in BackdropColors then BackdropColors[itemId] else DefaultBackdropColor, title)
  }

  /** Gradient ids are distinct per item, and a poster's never equals a
      backdrop's, so several images can share one document. */
  lemma GradientIdsDistinct(a: string, b: string, ta: string, tb: string, ya: string, yb: string)
    ensures GeneratePoster(a, ta, ya).gradientId == GeneratePoster(b, tb, yb).gradientId <==> a == b
    ensures GenerateBackdrop(a, ta).gradientId == GenerateBackdrop(b, tb).gradientId <==> a == b
    ensures GeneratePoster(a, ta, ya).gradientId != GenerateBackdrop(b, tb).gradientId
  {
    var pa := GeneratePoster(a, ta, ya).gradientId;
    var pb := GeneratePoster(b, tb, yb).gradientId;
    if pa == pb {
      assert a == pa[5..] && b == pb[5..];
    }
    var ba := GenerateBackdrop(a, ta).gradientId;
    var bb := GenerateBackdrop(b, tb).gradientId;
    if ba == bb {
      assert a == ba[14..] && b == bb[14..];
    }
    assert pa[0] == 'g' && GenerateBackdrop(b, tb).gradientId[0] == 'b';
  }

  /** The two colour tables list the same items, and each backdrop colour is
      the accent of that item's poster, except for 'movie-2'. */
  lemma BackdropUsesPosterAccent(itemId: string)
    ensures itemId in PosterPalettes <==> itemId in BackdropColors
    ensures itemId in BackdropColors && itemId != "movie-2" ==>
              BackdropColors[itemId] == PosterPalettes[itemId].accent
    ensures BackdropColors["movie-2"] == PosterPalettes["movie-2"].bg
  {
  }

  /** Joining the first words back together gives a prefix of the title,
      and a title of at most two words is shown whole. */
  lemma FirstTwoWordsOfTitle(title: string)
    ensures StartsWith(title, FirstTwoWords(title))
    ensures |Split(title, ' ')| <= 2 ==> FirstTwoWords(title) == title
  {
    var words := Split(title, ' ');
    var n := if |words| < 2 then |words| else 2;
    JoinPrefix(title, ' ', n);
    if |words| <= 2 {
      assert words[..n] == words;
      JoinSplit(title, ' ');
    }
  }

  /** Joining the first `n` pieces of a split gives a prefix of the text. */
  lemma {:induction false} JoinPrefix(s: string, sep: char, n: nat)
    requires 1 <= n <= |Split(s, sep)|
    ensures StartsWith(s, Join(Split(s, sep)[..n], sep))
  {
    var parts := Split(s, sep);
    if s == [] {
      assert parts[..n] == [""];
    } else if s[0] == sep {
      var rest := Split(s[1..], sep);
      assert parts == [""] + rest;
      if n == 1 {
        assert parts[..n] == [""];
      } else {
        JoinPrefix(s[1..], sep, n - 1);
        assert parts[..n] == [""] + rest[..n - 1];
        assert parts[..n][1..] == rest[..n - 1];
        var j := Join(rest[..n - 1], sep);
        assert Join(parts[..n], sep) == [sep] + j;
        assert s[..|j| + 1] == [sep] + s[1..][..|j|];
      }
    } else {
      var rest := Split(s[1..], sep);
      JoinPrefix(s[1..], sep, n);
      var head := [s[0]] + rest[0];
      assert parts == [head] + rest[1..];
      JoinConsFirst(s[0], rest[..n], sep);
      assert parts[..n] == [head] + rest[..n][1..];
      var j := Join(rest[..n], sep);
      assert s[..|j| + 1] == [s[0]] + s[1..][..|j|];
    }
  }

  /** Prefixing the first piece prefixes the joined text. */
  lemma JoinConsFirst(c: char, parts: seq<string>, sep: char)
    requires |parts| >= 1
    ensures Join([[c] + parts[0]] + parts[1..], sep) == [c] + Join(parts, sep)
  {
    var q := [[c] + parts[0]] + parts[1..];
    assert q[1..] == parts[1..];
    if |parts| > 1 {
      assert Join(q, sep) == [c] + parts[0] + [sep] + Join(parts[1..], sep);
    }
  }
}
