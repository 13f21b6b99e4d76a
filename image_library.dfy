/**
 * The NASA image and video library: the category menu, a category's search
 * results, and one asset's details. The renderers pick fields with fallbacks for
 * missing ones, choose an image link, truncate lists, and say when nothing was found.
 */
module ImageLibrary {
  import opened Wrappers
  import opened Text

  /** The categories the menu offers, in the order it lists them. */
  const Categories: seq<string> :=
    ["space", "earth", "mars", "galaxy", "nebula", "astronaut", "satellite", "telescope"]

  /** How many results one category search asks for. */
  const SearchLimit := 12

  const MaxImageLinks := 3
  const MaxVideoLinks := 2
  const MaxKeywords := 10

  /** One link of an item; every member may be missing. */
  datatype Link = Link(href: Option<string>, render: Option<string>, rel: Option<string>)

  /** The first entry of an item's `data` array. */
  datatype ItemData = ItemData(
    nasaId: Option<string>,
    title: Option<string>,
    description: Option<string>,
    dateCreated: Option<string>,
    mediaType: Option<string>,
    keywords: Option<seq<string>>)

  /**
   * One item of a collection. `data` is the item's `data` array and `links` its
   * `links` array; a missing array behaves as an empty one wherever the page reads it.
   */
  datatype Item = Item(data: seq<ItemData>, links: seq<Link>)

  datatype Collection = Collection(items: Option<seq<Item>>, totalHits: Option<int>)

  /** The `data` member of a library response. */
  datatype LibraryData = LibraryData(collection: Option<Collection>)

  // ----- reading an item -----

  /** `item.data?.[0]?.<field>`: the field of the item's first data entry, if it has one. */
  function Field(item: Item, get: ItemData -> Option<string>): Option<string> {
    if item.data == [] then None else get(item.data[0])
  }

  /** `item.data?.[0]?.title || 'Sin título'`. */
  function TitleOf(item: Item): (t: string)
    ensures t != ""
    ensures item.data != [] && Truthy(item.data[0].title) ==> t == item.data[0].title.value
    ensures !(item.data != [] && Truthy(item.data[0].title)) ==> t == "Sin título"
  {
    OrElse(Field(item, (d: ItemData) => d.title), "Sin título")
  }

  /** `item.data?.[0]?.description || 'Sin descripción'`. */
  function DescriptionOf(item: Item): (t: string)
    ensures t != ""
    ensures item.data != [] && Truthy(item.data[0].description) ==> t == item.data[0].description.value
    ensures !(item.data != [] && Truthy(item.data[0].description)) ==> t == "Sin descripción"
  {
    OrElse(Field(item, (d: ItemData) => d.description), "Sin descripción")
  }

  /** `item.data?.[0]?.date_created || 'Fecha no disponible'`. */
  function DateOf(item: Item): (t: string)
    ensures t != ""
    ensures item.data != [] && Truthy(item.data[0].dateCreated) ==> t == item.data[0].dateCreated.value
    ensures !(item.data != [] && Truthy(item.data[0].dateCreated)) ==> t == "Fecha no disponible"
  {
    OrElse(Field(item, (d: ItemData) => d.dateCreated), "Fecha no disponible")
  }

  /** `(mediaType || 'image') === 'video'`: only an explicit 'video' counts as a video. */
  function IsVideo(item: Item): (b: bool)
    ensures b <==> Field(item, (d: ItemData) => d.mediaType) == Some("video")
  {
    OrElse(Field(item, (d: ItemData) => d.mediaType), "image") == "video"
  }

  // ----- choosing the image of a search result -----

  /** `links.find(link => link.render === 'image')`. */
  function FindImageLink(links: seq<Link>): (r: Option<nat>)
    ensures r.Some? ==> r.value < |links| && links[r.value].render == Some("image")
    ensures r.Some? ==> forall j :: 0 <= j < r.value ==> links[j].render != Some("image")
    ensures r.None? ==> forall j :: 0 <= j < |links| ==> links[j].render != Some("image")
  {
    if links == [] then None
    else if links[0].render == Some("image") then Some(0)
    else
      var rest := FindImageLink(links[1..]);
      if rest.Some? then Some(rest.value + 1) else None
  }

  /**
   * The image shown for a search result: the first link rendered as an image, else the
   * first link, and its `href`, '' when there is none. A chosen link without an
   * `href` gives '' even when a later link has one.
   */
  function ImageUrl(links: seq<Link>): (url: string)
    ensures (exists j :: 0 <= j < |links| && links[j].render == Some("image")) ==>
      var k := FindImageLink(links).value; url == OrElse(links[k].href, "")
    ensures (forall j :: 0 <= j < |links| ==> links[j].render != Some("image")) ==>
      url == if links == [] then "" else OrElse(links[0].href, "")
  {
    var found := FindImageLink(links);
    if found.Some? then OrElse(links[found.value].href, "")
    else if links == [] then ""
    else OrElse(links[0].href, "")
  }

  // ----- the category menu and a category's results -----

  /** One result tile: an image only when its URL is not '', and a details button only with a nasa_id. */
  datatype ResultTile = ResultTile(
    image: Option<string>,
    title: string,
    date: string,
    isVideo: bool,
    detailsFor: Option<string>)

  datatype SearchView =
    | NoneFound(category: string)
    | Results(heading: string, totalHits: int, count: nat, tiles: seq<ResultTile>)

  /**
   * One result: an image exactly when the chosen URL is not '', the title, date and
   * media kind with their fallbacks, and a details button exactly when `nasa_id` is truthy.
   */
  function Tile(item: Item): (t: ResultTile)
    ensures t.image.None? <==> ImageUrl(item.links) == ""
    ensures t.image.Some? ==> t.image.value == ImageUrl(item.links)
    ensures t.title == TitleOf(item) && t.date == DateOf(item) && t.isVideo == IsVideo(item)
    ensures t.detailsFor.Some? <==> item.data != [] && Truthy(item.data[0].nasaId)
    ensures t.detailsFor.Some? ==> t.detailsFor == item.data[0].nasaId
  {
    var url := ImageUrl(item.links);
    var id := Field(item, (d: ItemData) => d.nasaId);
    ResultTile(
      if url == "" then None else Some(url),
      TitleOf(item), DateOf(item), IsVideo(item),
      if Truthy(id) then id else None)
  }

  /** The search found something: data, its collection and a non-empty item list are all there. */
  predicate FoundItems(data: Option<LibraryData>) {
    && data.Some? && data.value.collection.Some?
    && data.value.collection.value.items.Some? && data.value.collection.value.items.value != []
  }

  /**
   * Renders a category's results. Without data, collection or items, or with no items,
   * it says nothing was found for the category; otherwise the heading is the category
   * with only its first character upper-cased, and every item gets a tile, in order.
   */
  function DisplaySearch(data: Option<LibraryData>, category: string): (v: SearchView)
    ensures v.NoneFound? <==> !FoundItems(data)
    ensures v.NoneFound? ==> v.category == category
    ensures v.Results? ==>
      var items := data.value.collection.value.items.value;
      && |v.heading| == |category|
      && (category != "" ==> v.heading[0] == AsciiUpper(category[0]) && v.heading[1..] == category[1..])
      && v.count == |items| == |v.tiles|
      && (forall i :: 0 <= i < |items| ==> v.tiles[i] == Tile(items[i]))
      && (v.totalHits == match data.value.collection.value.totalHits
                         case Some(n) => n
                         case None => 0)
  {
    if !FoundItems(data) then NoneFound(category)
    else
      var c := data.value.collection.value;
      var items := c.items.value;
      Results(
        Capitalize(category),
        if c.totalHits.Some? && c.totalHits.value != 0 then c.totalHits.value else 0,
        |items|,
        seq(|items|, i requires 0 <= i < |items| => Tile(items[i])))
  }

  // ----- one asset's details -----

  /** A media link of an asset: where it points, and its caption (`rel`, else a default). */
  datatype MediaTile = MediaTile(href: Option<string>, caption: string)

  datatype DetailsView =
    | DetailsUnavailable
    | AssetNotFound
    | Details(
        title: string,
        date: string,
        description: string,
        images: seq<MediaTile>,
        videos: seq<MediaTile>,
        keywords: seq<string>)

  /** `links.filter(link => link.render === r)`. */
  function WithRender(links: seq<Link>, r: string): (s: seq<Link>)
    ensures |s| <= |links|
    ensures forall l :: l in s ==> l in links && l.render == Some(r)
    ensures forall l :: l in links && l.render == Some(r) ==> l in s
  {
    if links == [] then []
    else (if links[0].render == Some(r) then [links[0]] else []) + WithRender(links[1..], r)
  }

  /** Filtering a concatenation filters each part and keeps their order. */
  lemma {:induction false} WithRenderAppend(a: seq<Link>, b: seq<Link>, r: string)
    ensures WithRender(a + b, r) == WithRender(a, r) + WithRender(b, r)
  {
    if a == [] {
      assert a + b == b;
    } else {
      var head := if a[0].render == Some(r) then [a[0]] else [];
      assert (a + b)[0] == a[0] && (a + b)[1..] == a[1..] + b;
      assert WithRender(a + b, r) == head + WithRender(a[1..] + b, r);
      WithRenderAppend(a[1..], b, r);
      assert WithRender(a, r) == head + WithRender(a[1..], r);
    }
  }

  /** A single link is kept exactly when it is rendered as `r`. */
  lemma WithRenderSingle(l: Link, r: string)
    ensures WithRender([l], r) == if l.render == Some(r) then [l] else []
  {
  }

  function MediaTiles(links: seq<Link>, fallback: string): (tiles: seq<MediaTile>)
    ensures |tiles| == |links|
    ensures forall i :: 0 <= i < |links| ==>
      tiles[i].href == links[i].href && tiles[i].caption == OrElse(links[i].rel, fallback)
  {
    seq(|links|, i requires 0 <= i < |links| => MediaTile(links[i].href, OrElse(links[i].rel, fallback)))
  }

  function Keywords(item: Item): seq<string> {
    if item.data == [] then []
    else match item.data[0].keywords
      case Some(k) => k
      case None => []
  }

  /**
   * Renders an asset's details. Without data or collection the details are
   * unavailable; with no first item the asset is not found; otherwise at most three
   * image links, two video links and ten keywords are shown, each list being empty
   * (and its section left out) when the asset has none.
   */
  function DisplayDetails(data: Option<LibraryData>): (v: DetailsView)
    ensures v.DetailsUnavailable? <==> data.None? || data.value.collection.None?
    ensures v.AssetNotFound? <==>
      data.Some? && data.value.collection.Some?
      && (data.value.collection.value.items.None? || data.value.collection.value.items.value == [])
    ensures v.Details? ==>
      var asset := data.value.collection.value.items.value[0];
      var images := WithRender(asset.links, "image");
      var videos := WithRender(asset.links, "video");
      && v.title == TitleOf(asset) && v.date == DateOf(asset) && v.description == DescriptionOf(asset)
      && |v.images| == (if |images| < MaxImageLinks then |images| else MaxImageLinks)
      && |v.videos| == (if |videos| < MaxVideoLinks then |videos| else MaxVideoLinks)
      && |v.keywords| == (if |Keywords(asset)| < MaxKeywords then |Keywords(asset)| else MaxKeywords)
      && (v.images == [] <==> images == []) && (v.videos == [] <==> videos == [])
      && (v.keywords == [] <==> Keywords(asset) == [])
      && (forall i :: 0 <= i < |v.images| ==>
            v.images[i].href == images[i].href && v.images[i].caption == OrElse(images[i].rel, "Imagen"))
      && (forall i :: 0 <= i < |v.videos| ==>
            v.videos[i].href == videos[i].href && v.videos[i].caption == OrElse(videos[i].rel, "Video"))
      && (forall i :: 0 <= i < |v.keywords| ==> v.keywords[i] == Keywords(asset)[i])
  {
    if data.None? || data.value.collection.None? then DetailsUnavailable
    else
      var items := match data.value.collection.value.items
        case Some(s) => s
        case None => [];
      if items == [] then AssetNotFound
      else
        var asset := items[0];
        Details(
          TitleOf(asset), DateOf(asset), DescriptionOf(asset),
          MediaTiles(Take(WithRender(asset.links, "image"), MaxImageLinks), "Imagen"),
          MediaTiles(Take(WithRender(asset.links, "video"), MaxVideoLinks), "Video"),
          Take(Keywords(asset), MaxKeywords))
  }
}
