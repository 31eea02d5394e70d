// Clickable ad embeds (src/lib/ad-embed.ts): the HTML image map and the SVG
// overlay that make a rendered ad card link to its landing page, and the
// dispatch that picks an embedding method.
//
// The clock (`Date.now()` and the ISO timestamp), whether a browser window
// exists, the canvas compositing and the server-side image library are
// inputs. Coordinates are integers.

module AdEmbed {
  import opened Common

  const DefaultSide := 1080
  const DefaultMethod := "svg-overlay"
  const ServerOnlyMessage := "embedURLInPNGMetadata requires server-side execution"

  datatype Region = Region(x: int, y: int, width: int, height: int)

  /** `AdEmbedOptions`: every field but the landing URL may be absent. */
  datatype AdEmbedOptions = AdEmbedOptions(
    landingURL: string, width: Option<int>, height: Option<int>, embedMethod: Option<string>, clickableRegion: Option<Region>)

  /** The options a caller that passes none gets: only the landing URL. */
  function DefaultOptions(url: string): AdEmbedOptions {
    AdEmbedOptions(url, None, None, None, None)
  }

  /** `options.width || 1080`: absent or zero gives 1080. */
  function Width(options: AdEmbedOptions): (w: int)
    ensures w != 0
    ensures options.width.Some? && options.width.value != 0 ==> w == options.width.value
  {
    if options.width.Some? && options.width.value != 0 then options.width.value else DefaultSide
  }

  /** `options.height || 1080`. */
  function Height(options: AdEmbedOptions): (h: int)
    ensures h != 0
    ensures options.height.Some? && options.height.value != 0 ==> h == options.height.value
  {
    if options.height.Some? && options.height.value != 0 then options.height.value else DefaultSide
  }

  /** The clickable region: the one given, or the whole image. */
  function ClickRegion(options: AdEmbedOptions): (r: Region)
    ensures options.clickableRegion.None? ==> r == Region(0, 0, Width(options), Height(options))
    ensures options.clickableRegion.Some? ==> r == options.clickableRegion.value
  {
    options.clickableRegion.GetOr(Region(0, 0, Width(options), Height(options)))
  }

  /** An integer as a template literal prints it. */
  function IntString(n: int): (r: string)
    ensures |r| > 0 && forall i :: 0 <= i < |r| ==> r[i] == '-' || '0' <= r[i] <= '9'
  {
    if n < 0 then "-" + DecimalString(-n) else DecimalString(n)
  }

  /** The top-left and bottom-right corners of a region, as printed. */
  function Corners(r: Region): seq<string> {
    [IntString(r.x), IntString(r.y), IntString(r.x + r.width), IntString(r.y + r.height)]
  }

  /** `${x},${y},${x + width},${y + height}`. */
  function Coords(r: Region): string {
    Join(Corners(r), ',')
  }

  /** Reading the coordinates back by splitting on commas gives the two corners. */
  lemma CoordsSplit(r: Region)
    ensures Split(Coords(r), ',') == Corners(r)
  {
    var parts := Corners(r);
    forall k | 0 <= k < 4 ensures ',' !in parts[k] {
      assert forall i :: 0 <= i < |parts[k]| ==> parts[k][i] == '-' || '0' <= parts[k][i] <= '9';
    }
    SplitJoin(parts, ',');
  }

  /** The whole-image region of a default-sized card spans 0,0 to 1080,1080. */
  lemma DefaultCoords(url: string)
    ensures ClickRegion(DefaultOptions(url)) == Region(0, 0, 1080, 1080)
    ensures Coords(Region(0, 0, 1080, 1080)) == "0,0,1080,1080"
  {
    PrintedSides();
    JoinFour("0", "0", "1080", "1080", ',');
  }

  lemma PrintedSides()
    ensures IntString(0) == "0" && IntString(1080) == "1080"
  {
    assert DecimalString(1) == "1";
    assert DecimalString(10) == DecimalString(1) + "0";
    assert DecimalString(108) == DecimalString(10) + "8";
    assert DecimalString(1080) == DecimalString(108) + "0";
  }

  lemma JoinFour(a: string, b: string, c: string, d: string, sep: char)
    ensures Join([a, b, c, d], sep) == a + [sep] + b + [sep] + c + [sep] + d
  {
    assert [a, b, c, d][1..] == [b, c, d];
    assert [b, c, d][1..] == [c, d];
    assert [c, d][1..] == [d];
    assert Join([c, d], sep) == c + [sep] + d;
    assert Join([b, c, d], sep) == b + [sep] + (c + [sep] + d);
    assert Join([a, b, c, d], sep) == a + [sep] + (b + [sep] + (c + [sep] + d));
  }

  /** `ad-card-map-<now>`, the map id used when none is given. */
  function MapId(now: nat): string {
    "ad-card-map-" + DecimalString(now)
  }

  /** A link that opens in a new tab without handing the new page a reference back. */
  datatype Link = Link(href: string, target: string, rel: string)

  function NewTabLink(url: string): Link {
    Link(url, "_blank", "noopener noreferrer")
  }

  /** The `<area>` of the image map. */
  datatype MapArea = MapArea(shape: string, coords: string, link: Link, alt: string, title: string)

  /** `<map name=...>` holding one area. */
  datatype ImageMap = ImageMap(name: string, area: MapArea)

  /** The `<rect>` of the overlay. */
  datatype OverlayRect = OverlayRect(x: int, y: int, width: int, height: int, cssClass: string, ariaLabel: string)

  /** `<svg width=... height=...>` whose link wraps one rectangle. */
  datatype SvgOverlay = SvgOverlay(width: int, height: int, link: Link, rect: OverlayRect)

  /**
   * `createHTMLImageMap`: one rectangular area over the clickable region,
   * its corners as coordinates, linking to the landing page in a new tab and
   * titled with the URL.
   */
  function HtmlImageMap(url: string, mapId: string, options: AdEmbedOptions): (m: ImageMap)
    ensures m.name == mapId && m.area.shape == "rect"
    ensures Split(m.area.coords, ',') == Corners(ClickRegion(options))
    ensures m.area.link == NewTabLink(url) && m.area.title == url
  {
    CoordsSplit(ClickRegion(options));
    ImageMap(mapId, MapArea("rect", Coords(ClickRegion(options)), NewTabLink(url), "Click to view landing page", url))
  }

  /**
   * `createClickableSVGOverlay`: an SVG of the image's size whose link to the
   * landing page wraps one transparent rectangle over the clickable region.
   */
  function ClickableSvgOverlay(url: string, options: AdEmbedOptions): (svg: SvgOverlay)
    ensures svg.width == Width(options) && svg.height == Height(options)
    ensures var r := ClickRegion(options);
      svg.rect.x == r.x && svg.rect.y == r.y && svg.rect.width == r.width && svg.rect.height == r.height
    ensures svg.link == NewTabLink(url) && svg.rect.ariaLabel == "Click to view landing page: " + url
  {
    var r := ClickRegion(options);
    SvgOverlay(Width(options), Height(options), NewTabLink(url),
      OverlayRect(r.x, r.y, r.width, r.height, "clickable-region", "Click to view landing page: " + url))
  }

  // ---------------------------------------------------------------------
  // Choosing the method

  /** The image an embed hands back: a data URL, or a PNG buffer made on the server. */
  datatype ImagePayload = DataUrl(text: string) | PngBuffer(bytes: seq<int>)

  datatype EmbedMetadata = EmbedMetadata(url: string, embedMethod: string, timestamp: string)

  datatype ClickableAdResult = ClickableAdResult(imageData: ImagePayload, htmlMap: Option<ImageMap>, metadata: EmbedMetadata)

  /** `options.method || 'svg-overlay'`. */
  function EmbedMethod(options: AdEmbedOptions): (m: string)
    ensures m != ""
    ensures options.embedMethod.None? || options.embedMethod.value == "" ==> m == DefaultMethod
  {
    if options.embedMethod.Some? && options.embedMethod.value != "" then options.embedMethod.value else DefaultMethod
  }

  predicate KnownMethod(m: string) {
    m == "svg-overlay" || m == "metadata" || m == "html-map"
  }

  /**
   * `embedURLInPNGMetadata`: refused where a browser window exists; on the
   * server the image library's output (`written`), or the buffer unchanged
   * when the library fails.
   */
  function EmbedURLInPNGMetadata(hasWindow: bool, imageBuffer: seq<int>, written: Option<seq<int>>): (r: Result<seq<int>, string>)
    ensures hasWindow <==> r == Err(ServerOnlyMessage)
    ensures !hasWindow && written.None? ==> r == Ok(imageBuffer)
    ensures !hasWindow && written.Some? ==> r == Ok(written.value)
  {
    if hasWindow then Err(ServerOnlyMessage)
    else Ok(written.GetOr(imageBuffer))
  }

  /**
   * The method switch of `createClickableAdEmbed`, given the map it builds.
   * `composite` is what compositing the overlay onto the PNG resolves to
   * (or the message it rejects with), `pngBuffer` the decoded PNG and
   * `written` the image library's output on the server. `svg-overlay`
   * returns the composite; `metadata` writes the URL into the PNG on the
   * server and falls back to the composite in a browser; `html-map` returns
   * the PNG unchanged. All three add the map and the metadata; any other
   * method throws.
   */
  function Embed(chosen: string, pngDataURL: string, hasWindow: bool, composite: Result<string, string>,
                 pngBuffer: seq<int>, written: Option<seq<int>>, imageMap: ImageMap, metadata: EmbedMetadata): (r: Result<ClickableAdResult, string>)
    ensures !KnownMethod(chosen) ==> r == Err("Unknown embed method: " + chosen)
    ensures KnownMethod(chosen) && composite.Ok? ==> r.Ok?
    ensures r.Ok? ==> r.value.metadata == metadata && r.value.htmlMap == Some(imageMap)
    ensures chosen == "html-map" ==> r.Ok? && r.value.imageData == DataUrl(pngDataURL)
    ensures chosen == "svg-overlay" || (chosen == "metadata" && hasWindow) ==>
      (composite.Err? ==> r == Err(composite.error))
      && (composite.Ok? ==> r.Ok? && r.value.imageData == DataUrl(composite.value))
    ensures chosen == "metadata" && !hasWindow ==>
      r.Ok? && r.value.imageData == PngBuffer(written.GetOr(pngBuffer))
  {
    if chosen == "svg-overlay" || (chosen == "metadata" && hasWindow) then
      match composite
      case Err(e) => Err(e)
      case Ok(image) => Ok(ClickableAdResult(DataUrl(image), Some(imageMap), metadata))
    else if chosen == "metadata" then
      match EmbedURLInPNGMetadata(hasWindow, pngBuffer, written)
      case Ok(bytes) => Ok(ClickableAdResult(PngBuffer(bytes), Some(imageMap), metadata))
      case Err(e) => Err(e)
    else if chosen == "html-map" then
      Ok(ClickableAdResult(DataUrl(pngDataURL), Some(imageMap), metadata))
    else
      Err("Unknown embed method: " + chosen)
  }

  /** `createClickableAdEmbed`: the switch on the chosen method, with the map for the options and the metadata naming the URL and the method. */
  function CreateClickableAdEmbed(
    pngDataURL: string, url: string, options: AdEmbedOptions, now: nat, nowIso: string, hasWindow: bool,
    composite: Result<string, string>, pngBuffer: seq<int>, written: Option<seq<int>>): (r: Result<ClickableAdResult, string>)
    ensures var m := EmbedMethod(options);
      && (!KnownMethod(m) ==> r == Err("Unknown embed method: " + m))
      && (r.Ok? ==> r.value.htmlMap == Some(HtmlImageMap(url, MapId(now), options))
                    && r.value.metadata == EmbedMetadata(url, m, nowIso))
      && (m == "html-map" ==> r.Ok? && r.value.imageData == DataUrl(pngDataURL))
      && (m == "metadata" && !hasWindow ==> r.Ok? && r.value.imageData == PngBuffer(written.GetOr(pngBuffer)))
      && (m == "svg-overlay" || (m == "metadata" && hasWindow) ==>
            r == (match composite
                  case Err(e) => Err(e)
                  case Ok(image) => Ok(ClickableAdResult(DataUrl(image), Some(HtmlImageMap(url, MapId(now), options)),
                                                         EmbedMetadata(url, m, nowIso)))))
  {
    Embed(EmbedMethod(options), pngDataURL, hasWindow, composite, pngBuffer, written,
          HtmlImageMap(url, MapId(now), options), EmbedMetadata(url, EmbedMethod(options), nowIso))
  }

  /** With no method given the overlay is used, and the metadata names it. */
  lemma DefaultEmbedIsOverlay(png: string, url: string, now: nat, iso: string, composite: string, buffer: seq<int>)
    ensures var r := CreateClickableAdEmbed(png, url, DefaultOptions(url), now, iso, true, Ok(composite), buffer, None);
      && r.Ok? && r.value.imageData == DataUrl(composite)
      && r.value.metadata == EmbedMetadata(url, "svg-overlay", iso)
  {
  }

  /** Without a region or size the map's one area covers the whole 1080 x 1080 card. */
  lemma DefaultMapCoversCard(url: string, mapId: string)
    ensures HtmlImageMap(url, mapId, DefaultOptions(url)).area.coords == "0,0,1080,1080"
  {
    DefaultCoords(url);
  }
}
