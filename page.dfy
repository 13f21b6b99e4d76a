/**
 * The page: per region, whether its loading indicator and its results are visible and
 * what the results container holds, plus the picture-of-the-day language flag.
 *
 * Every loader runs the same lifecycle: show the loading indicator and hide the
 * results (the region is Loading while the request is in flight), then either render
 * the payload and show the results (Success) or show an error notice (Failure), and
 * in both cases hide the loading indicator. Each loader takes what the network
 * returned as a parameter, returns the URL it requested, and returns, as a ghost
 * value, the page as it stood at the point where it awaited the response.
 */
module Page {
  import opened Wrappers
  import Text
  import Request
  import Apod
  import Asteroids
  import ImageLibrary
  import MarsWeather
  import Epic
  import Rover

  /** The regions of the page; each has a loading element and a results element. */
  datatype Region =
    | ApodRegion | AsteroidsRegion | EarthRegion | MarsRegion
    | EpicRegion | RoverRegion | GalleryRegion | StatsRegion

  function RegionName(r: Region): string {
    match r
    case ApodRegion => "apod"
    case AsteroidsRegion => "asteroids"
    case EarthRegion => "earth"
    case MarsRegion => "mars"
    case EpicRegion => "epic"
    case RoverRegion => "rover"
    case GalleryRegion => "gallery"
    case StatsRegion => "stats"
  }

  /** The element id of a region's loading indicator. */
  function LoadingId(r: Region): string {
    RegionName(r) + "-loading"
  }

  /** The element id of a region's results container. */
  function ResultsId(r: Region): string {
    RegionName(r) + "-results"
  }

  /** Each element id names one element of one region, so a helper touches nothing else. */
  lemma IdsDistinct(r: Region, q: Region)
    ensures LoadingId(r) != ResultsId(q)
    ensures LoadingId(r) == LoadingId(q) ==> r == q
    ensures ResultsId(r) == ResultsId(q) ==> r == q
  {
    assert LoadingId(r)[|LoadingId(r)| - 1] == 'g';
    assert ResultsId(q)[|ResultsId(q)| - 1] == 's';
    if LoadingId(r) == LoadingId(q) {
      assert RegionName(r) == LoadingId(r)[..|LoadingId(r)| - 8];
      assert RegionName(q) == LoadingId(q)[..|LoadingId(q)| - 8];
      RegionNameInjective(r, q);
    }
    if ResultsId(r) == ResultsId(q) {
      assert RegionName(r) == ResultsId(r)[..|ResultsId(r)| - 8];
      assert RegionName(q) == ResultsId(q)[..|ResultsId(q)| - 8];
      RegionNameInjective(r, q);
    }
  }

  lemma RegionNameInjective(r: Region, q: Region)
    ensures RegionName(r) == RegionName(q) ==> r == q
  {
    if RegionName(r) == RegionName(q) {
      var n := RegionName(r);
      assert |n| == |RegionName(q)| && n[0] == RegionName(q)[0];
    }
  }

  /** The cache counters the statistics region reports. */
  datatype CacheStats = CacheStats(keys: int, hits: int, misses: int)

  /** What a renderer writes into a results container. */
  datatype View =
    | ApodShown(apod: Apod.ApodView)
    | ApodGalleryShown(pictures: seq<Apod.GalleryTile>)
    | AsteroidsShown(asteroids: Asteroids.AsteroidsView)
    | CategoryMenu(categories: seq<string>)
    | SearchShown(search: ImageLibrary.SearchView)
    | DetailsShown(details: ImageLibrary.DetailsView)
    | MarsShown(weather: MarsWeather.MarsView)
    | EpicShown(images: seq<Epic.EpicTile>)
    | RoverShown(photos: seq<Rover.RoverTile>)
    | StatsShown(stats: CacheStats)

  /** A results container holds nothing yet, one notice, or a rendered view. */
  datatype Content = Blank | ErrorNotice(text: string) | SuccessNotice(text: string) | Rendered(view: View)

  const WarningSign := "⚠️"
  const CheckMark := "✅"

  /** The text of an error notice: the warning sign, a space, then the message. */
  function ErrorText(message: string): (t: string)
    ensures |t| == |WarningSign| + 1 + |message|
    ensures t[..|WarningSign| + 1] == WarningSign + " " && t[|WarningSign| + 1..] == message
  {
    WarningSign + " " + message
  }

  /** The text of a success notice: the check mark, a space, then the message. */
  function SuccessText(message: string): (t: string)
    ensures |t| == |CheckMark| + 1 + |message|
    ensures t[..|CheckMark| + 1] == CheckMark + " " && t[|CheckMark| + 1..] == message
  {
    CheckMark + " " + message
  }

  // ----- the page as a value, and the lifecycle on it -----

  datatype Snapshot = Snapshot(loading: map<Region, bool>, results: map<Region, bool>, content: map<Region, Content>)

  /** Every region has its two visibility flags and its content. */
  predicate Complete(s: Snapshot) {
    forall r: Region :: r in s.loading && r in s.results && r in s.content
  }

  /** Where a region stands in its load lifecycle. */
  datatype Phase = Idle | Loading | Succeeded | Failed

  /**
   * A region is Loading while its indicator is shown; otherwise Idle while its results
   * are hidden, Failed when they show an error notice, and Succeeded when they show
   * anything else.
   */
  function PhaseOf(s: Snapshot, r: Region): (p: Phase)
    requires Complete(s)
    ensures p == Loading <==> s.loading[r]
    ensures p == Idle <==> !s.loading[r] && !s.results[r]
    ensures p == Failed <==> !s.loading[r] && s.results[r] && s.content[r].ErrorNotice?
  {
    if s.loading[r] then Loading
    else if !s.results[r] then Idle
    else if s.content[r].ErrorNotice? then Failed
    else Succeeded
  }

  /** The content a finished load leaves: the rendered view, or one error notice. */
  function Outcome(outcome: Result<View, string>): (c: Content)
    ensures c.ErrorNotice? <==> outcome.Failure?
    ensures outcome.Failure? ==> c.text == ErrorText(outcome.error)
    ensures outcome.Success? ==> c == Rendered(outcome.value)
  {
    match outcome
    case Success(v) => Rendered(v)
    case Failure(m) => ErrorNotice(ErrorText(m))
  }

  /**
   * The page once a load has started: the region is Loading with its results hidden,
   * no content changes, and every other region keeps its phase.
   */
  function Began(s: Snapshot, r: Region): (t: Snapshot)
    ensures t.content == s.content
    ensures Complete(s) ==> Complete(t) && PhaseOf(t, r) == Loading && !t.results[r]
    ensures Complete(s) ==> forall q :: q != r ==> PhaseOf(t, q) == PhaseOf(s, q)
  {
    s.(loading := s.loading[r := true], results := s.results[r := false])
  }

  /**
   * The page once a load has finished: loading hidden and results shown, so the region
   * is Succeeded or Failed by the outcome; every other region keeps its phase.
   */
  function Settled(s: Snapshot, r: Region, outcome: Result<View, string>): (t: Snapshot)
    ensures r in t.loading && r in t.results && r in t.content
    ensures !t.loading[r] && t.results[r] && t.content[r] == Outcome(outcome)
    ensures Complete(s) ==>
      Complete(t) && PhaseOf(t, r) == if outcome.Success? then Succeeded else Failed
    ensures Complete(s) ==> forall q :: q != r ==> PhaseOf(t, q) == PhaseOf(s, q)
  {
    Snapshot(s.loading[r := false], s.results[r := true], s.content[r := Outcome(outcome)])
  }

  /** A request that fails leaves one notice: the warning sign, then the request's error prefix. */
  lemma FailedRequestNotice<T>(s: Snapshot, r: Region, exchange: Request.Exchange<T>)
    requires Request.Outcome(exchange).Failure?
    ensures var c := Settled(s, r, Failure(Request.Outcome(exchange).error)).content[r];
      && c.ErrorNotice?
      && c.text[..|WarningSign| + 1 + |Request.ErrorPrefix|] == WarningSign + " " + Request.ErrorPrefix
  {
    var m := Request.Outcome(exchange).error;
    assert m == Request.ErrorPrefix + m[|Request.ErrorPrefix|..];
    assert ErrorText(m) == WarningSign + " " + Request.ErrorPrefix + m[|Request.ErrorPrefix|..];
  }

  // ----- the queries the loaders send -----

  function AsteroidsParams(startDate: string, endDate: string): seq<Request.Param> {
    [("start_date", Request.Str(startDate)), ("end_date", Request.Str(endDate))]
  }

  function ImagesParams(category: string): seq<Request.Param> {
    [("q", Request.Str(category)), ("limit", Request.Number(ImageLibrary.SearchLimit))]
  }

  function CountParams(count: nat): seq<Request.Param> {
    [("count", Request.Number(count))]
  }

  function RoverParams(): seq<Request.Param> {
    [("rover", Request.Str(Rover.RoverName)), ("sol", Request.Number(Rover.RoverSol))]
  }

  lemma DecimalLiterals()
    ensures Text.NatToDecimal(12) == "12"
    ensures Text.NatToDecimal(20) == "20"
    ensures Text.NatToDecimal(1000) == "1000"
  {
    assert Text.NatToDecimal(1) == "1";
    assert Text.NatToDecimal(2) == "2";
    assert Text.NatToDecimal(10) == Text.NatToDecimal(1) + "0";
    assert Text.NatToDecimal(100) == Text.NatToDecimal(10) + "0";
    assert Text.NatToDecimal(1000) == Text.NatToDecimal(100) + "0";
  }

  /** Two parameters are sent in their order, each unless it is null or ''. */
  lemma PairQuery(p: Request.Param, q: Request.Param)
    ensures Request.KeptQuery([p, q])
      == (if Request.Kept(p.1) then [(p.0, Request.Serialize(p.1))] else [])
       + (if Request.Kept(q.1) then [(q.0, Request.Serialize(q.1))] else [])
  {
    assert [p, q] == [p] + [q];
    Request.KeptQueryAppend([p], [q]);
    Request.KeptQuerySingle(p.0, p.1);
    Request.KeptQuerySingle(q.0, q.1);
  }

  /** An empty category is dropped from the search query, leaving only the limit. */
  lemma ImagesQuery(category: string)
    ensures Request.KeptQuery(ImagesParams(category))
      == (if category == "" then [] else [("q", category)]) + [("limit", "12")]
  {
    DecimalLiterals();
    PairQuery(ImagesParams(category)[0], ImagesParams(category)[1]);
  }

  /** An empty date is dropped from the asteroid query. */
  lemma AsteroidsQuery(startDate: string, endDate: string)
    ensures Request.KeptQuery(AsteroidsParams(startDate, endDate))
      == (if startDate == "" then [] else [("start_date", startDate)])
       + (if endDate == "" then [] else [("end_date", endDate)])
  {
    PairQuery(AsteroidsParams(startDate, endDate)[0], AsteroidsParams(startDate, endDate)[1]);
  }

  /** The rover query always names the rover and the sol. */
  lemma RoverQuery()
    ensures Request.KeptQuery(RoverParams()) == [("rover", "curiosity"), ("sol", "1000")]
  {
    DecimalLiterals();
    PairQuery(RoverParams()[0], RoverParams()[1]);
  }

  /** The picture galleries ask for twelve and twenty pictures. */
  lemma CountQueries()
    ensures Request.KeptQuery(CountParams(12)) == [("count", "12")]
    ensures Request.KeptQuery(CountParams(20)) == [("count", "20")]
  {
    DecimalLiterals();
    Request.KeptQuerySingle("count", Request.Number(12));
    Request.KeptQuerySingle("count", Request.Number(20));
  }

  // ----- what each region shows once its request has settled -----

  function ApodOutcome(o: Result<Apod.ApodData, string>, lang: Apod.Language): Result<View, string> {
    o.MapValue((a: Apod.ApodData) => ApodShown(Apod.DisplayApod(a, Some(lang))))
  }

  function GalleryOutcome(o: Result<seq<Apod.ApodData>, string>): Result<View, string> {
    o.MapValue((p: seq<Apod.ApodData>) => ApodGalleryShown(Apod.DisplayGallery(p)))
  }

  function AsteroidsOutcome(o: Result<Asteroids.Feed, string>): Result<View, string> {
    o.MapValue((f: Asteroids.Feed) => AsteroidsShown(Asteroids.DisplayAsteroids(f)))
  }

  function SearchOutcome(o: Result<Option<ImageLibrary.LibraryData>, string>, category: string): Result<View, string> {
    o.MapValue((d: Option<ImageLibrary.LibraryData>) => SearchShown(ImageLibrary.DisplaySearch(d, category)))
  }

  function EpicOutcome(o: Result<seq<Epic.EpicImage>, string>): Result<View, string> {
    o.MapValue((e: seq<Epic.EpicImage>) => EpicShown(Epic.DisplayEpic(e)))
  }

  function RoverOutcome(o: Result<seq<Rover.Photo>, string>): Result<View, string> {
    o.MapValue((p: seq<Rover.Photo>) => RoverShown(Rover.DisplayRover(p)))
  }

  function StatsOutcome(o: Result<CacheStats, string>): Result<View, string> {
    o.MapValue((c: CacheStats) => StatsShown(c))
  }

  /**
   * The weather load's outcome: a failed request fails; a payload that reports an
   * error fails with 'error: message' (without the request prefix); anything else
   * renders, even when there is no data.
   */
  function MarsOutcome(o: Result<Option<MarsWeather.MarsData>, string>): (r: Result<View, string>)
    ensures o.Failure? ==> r == Failure(o.error)
    ensures o.Success? && MarsWeather.BackendError(o.value).Some? ==>
      r == Failure(MarsWeather.BackendError(o.value).value)
    ensures r.Success? <==> o.Success? && MarsWeather.BackendError(o.value).None?
    ensures r.Success? ==> r.value == MarsShown(MarsWeather.DisplayMars(o.value))
  {
    match o
    case Failure(m) => Failure(m)
    case Success(data) =>
      match MarsWeather.BackendError(data)
      case Some(e) => Failure(e)
      case None => Success(MarsShown(MarsWeather.DisplayMars(data)))
  }

  /** The asset-details load: rendered details replace the content, but visibility is left as it was. */
  function DetailsSettled(s: Snapshot, o: Result<Option<ImageLibrary.LibraryData>, string>): (t: Snapshot)
    ensures EarthRegion in t.loading && EarthRegion in t.content && (o.Failure? ==> EarthRegion in t.results)
    ensures !t.loading[EarthRegion]
    ensures o.Success? ==>
      t.results == s.results && t.content[EarthRegion] == Rendered(DetailsShown(ImageLibrary.DisplayDetails(o.value)))
    ensures o.Failure? ==> t.results[EarthRegion] && t.content[EarthRegion] == ErrorNotice(ErrorText(o.error))
    ensures Complete(s) ==> Complete(t) && (o.Failure? ==> PhaseOf(t, EarthRegion) == Failed)
    ensures Complete(s) ==> forall q :: q != EarthRegion ==> PhaseOf(t, q) == PhaseOf(s, q)
  {
    match o
    case Success(data) =>
      s.(loading := s.loading[EarthRegion := false],
         content := s.content[EarthRegion := Rendered(DetailsShown(ImageLibrary.DisplayDetails(data)))])
    case Failure(m) => Settled(s, EarthRegion, Failure(m))
  }

  // ----- the page -----

  class PageState {
    var loading: map<Region, bool>
    var results: map<Region, bool>
    var content: map<Region, Content>
    var apodLanguage: Apod.Language

    function Snap(): Snapshot
      reads this
    {
      Snapshot(loading, results, content)
    }

    ghost predicate Valid()
      reads this
    {
      Complete(Snap())
    }

    /** The page as loaded: nothing visible, nothing rendered, the language flag Spanish. */
    constructor ()
      ensures Valid()
      ensures forall r :: !loading[r] && !results[r] && content[r] == Blank
      ensures apodLanguage == Apod.InitialLanguage
    {
      var hidden := map[ApodRegion := false, AsteroidsRegion := false, EarthRegion := false,
                        MarsRegion := false, EpicRegion := false, RoverRegion := false,
                        GalleryRegion := false, StatsRegion := false];
      var blank := map[ApodRegion := Blank, AsteroidsRegion := Blank, EarthRegion := Blank,
                       MarsRegion := Blank, EpicRegion := Blank, RoverRegion := Blank,
                       GalleryRegion := Blank, StatsRegion := Blank];
      forall r: Region
        ensures r in hidden && r in blank && !hidden[r] && blank[r] == Blank
      {
        match r {
          case ApodRegion =>
          case AsteroidsRegion =>
          case EarthRegion =>
          case MarsRegion =>
          case EpicRegion =>
          case RoverRegion =>
          case GalleryRegion =>
          case StatsRegion =>
        }
      }
      loading := hidden;
      results := hidden;
      content := blank;
      apodLanguage := Apod.InitialLanguage;
    }

    // ----- the visibility helpers and the notices -----

    method ShowLoading(r: Region)
      requires Valid()
      modifies this`loading
      ensures Valid() && loading == old(loading)[r := true]
    {
      loading := loading[r := true];
    }

    method HideLoading(r: Region)
      requires Valid()
      modifies this`loading
      ensures Valid() && loading == old(loading)[r := false]
    {
      loading := loading[r := false];
    }

    method ShowResults(r: Region)
      requires Valid()
      modifies this`results
      ensures Valid() && results == old(results)[r := true]
    {
      results := results[r := true];
    }

    method HideResults(r: Region)
      requires Valid()
      modifies this`results
      ensures Valid() && results == old(results)[r := false]
    {
      results := results[r := false];
    }

    /** Replaces the region's content with one error notice, then shows the results. */
    method DisplayError(r: Region, message: string)
      requires Valid()
      modifies this`content, this`results
      ensures Valid()
      ensures content == old(content)[r := ErrorNotice(ErrorText(message))]
      ensures results == old(results)[r := true]
    {
      content := content[r := ErrorNotice(ErrorText(message))];
      ShowResults(r);
    }

    /** Replaces the region's content with one success notice, then shows the results. */
    method DisplaySuccess(r: Region, message: string)
      requires Valid()
      modifies this`content, this`results
      ensures Valid()
      ensures content == old(content)[r := SuccessNotice(SuccessText(message))]
      ensures results == old(results)[r := true]
    {
      content := content[r := SuccessNotice(SuccessText(message))];
      ShowResults(r);
    }

    // ----- the lifecycle steps -----

    /** The steps before the await: show the loading indicator, hide the results. */
    method Begin(r: Region)
      requires Valid()
      modifies this`loading, this`results
      ensures Valid() && Snap() == Began(old(Snap()), r)
    {
      ShowLoading(r);
      HideResults(r);
    }

    /** The steps after the await: render and show, or show the error; then hide loading. */
    method Settle(r: Region, outcome: Result<View, string>)
      requires Valid()
      modifies this`loading, this`results, this`content
      ensures Valid() && Snap() == Settled(old(Snap()), r, outcome)
    {
      match outcome {
        case Success(v) =>
          content := content[r := Rendered(v)];
          ShowResults(r);
        case Failure(m) =>
          DisplayError(r, m);
      }
      HideLoading(r);
    }

    // ----- the loaders -----

    /** Loads the picture of the day and renders it in the current language. */
    method LoadApod(exchange: Request.Exchange<Apod.ApodData>)
      returns (sent: Request.Url, ghost atAwait: Snapshot)
      requires Valid()
      modifies this`loading, this`results, this`content
      ensures Valid()
      ensures sent == Request.Url(Request.ApiBase + "/apod", [])
      ensures atAwait == Began(old(Snap()), ApodRegion)
      ensures Snap() == Settled(atAwait, ApodRegion, ApodOutcome(Request.Outcome(exchange), apodLanguage))
    {
      Begin(ApodRegion);
      atAwait := Snap();
      var outcome;
      sent, outcome := Request.MakeRequest("/apod", [], exchange);
      Settle(ApodRegion, ApodOutcome(outcome, apodLanguage));
    }

    /** Loads twelve pictures into the picture-of-the-day region as a gallery. */
    method LoadMultipleApod(exchange: Request.Exchange<seq<Apod.ApodData>>)
      returns (sent: Request.Url, ghost atAwait: Snapshot)
      requires Valid()
      modifies this`loading, this`results, this`content
      ensures Valid()
      ensures sent == Request.Url(Request.ApiBase + "/apod/multiple", Request.KeptQuery(CountParams(12)))
      ensures atAwait == Began(old(Snap()), ApodRegion)
      ensures Snap() == Settled(atAwait, ApodRegion, GalleryOutcome(Request.Outcome(exchange)))
    {
      Begin(ApodRegion);
      atAwait := Snap();
      var outcome;
      sent, outcome := Request.MakeRequest("/apod/multiple", CountParams(12), exchange);
      Settle(ApodRegion, GalleryOutcome(outcome));
    }

    /** Flips the language flag, then reloads the picture of the day, which reads the new flag. */
    method ToggleApodLanguage(exchange: Request.Exchange<Apod.ApodData>)
      returns (sent: Request.Url, ghost atAwait: Snapshot)
      requires Valid()
      modifies this
      ensures Valid()
      ensures apodLanguage == Apod.Toggled(old(apodLanguage))
      ensures sent == Request.Url(Request.ApiBase + "/apod", [])
      ensures atAwait == Began(old(Snap()), ApodRegion)
      ensures Snap() == Settled(atAwait, ApodRegion,
        ApodOutcome(Request.Outcome(exchange), Apod.Toggled(old(apodLanguage))))
    {
      apodLanguage := Apod.Toggled(apodLanguage);
      sent, atAwait := LoadApod(exchange);
    }

    /** Loads the asteroids between the two dates (the caller computes the last seven days). */
    method LoadAsteroids(startDate: string, endDate: string, exchange: Request.Exchange<Asteroids.Feed>)
      returns (sent: Request.Url, ghost atAwait: Snapshot)
      requires Valid()
      modifies this`loading, this`results, this`content
      ensures Valid()
      ensures sent == Request.Url(Request.ApiBase + "/asteroids", Request.KeptQuery(AsteroidsParams(startDate, endDate)))
      ensures atAwait == Began(old(Snap()), AsteroidsRegion)
      ensures Snap() == Settled(atAwait, AsteroidsRegion, AsteroidsOutcome(Request.Outcome(exchange)))
    {
      Begin(AsteroidsRegion);
      atAwait := Snap();
      var outcome;
      sent, outcome := Request.MakeRequest("/asteroids", AsteroidsParams(startDate, endDate), exchange);
      Settle(AsteroidsRegion, AsteroidsOutcome(outcome));
    }

    /** Shows the menu of image-library categories; nothing is requested. */
    method LoadNASAImages()
      requires Valid()
      modifies this`loading, this`results, this`content
      ensures Valid()
      ensures Snap() == Settled(Began(old(Snap()), EarthRegion), EarthRegion,
        Success(CategoryMenu(ImageLibrary.Categories)))
    {
      Begin(EarthRegion);
      content := content[EarthRegion := Rendered(CategoryMenu(ImageLibrary.Categories))];
      ShowResults(EarthRegion);
      HideLoading(EarthRegion);
    }

    /** Searches the image library for a category and shows what was found. */
    method LoadNASAImagesByCategory(category: string, exchange: Request.Exchange<Option<ImageLibrary.LibraryData>>)
      returns (sent: Request.Url, ghost atAwait: Snapshot)
      requires Valid()
      modifies this`loading, this`results, this`content
      ensures Valid()
      ensures sent == Request.Url(Request.ApiBase + "/images", Request.KeptQuery(ImagesParams(category)))
      ensures atAwait == Began(old(Snap()), EarthRegion)
      ensures Snap() == Settled(atAwait, EarthRegion, SearchOutcome(Request.Outcome(exchange), category))
    {
      Begin(EarthRegion);
      atAwait := Snap();
      var outcome;
      sent, outcome := Request.MakeRequest("/images", ImagesParams(category), exchange);
      Settle(EarthRegion, SearchOutcome(outcome, category));
    }

    /**
     * Loads one asset's details. Unlike the other loaders it neither hides nor shows the
     * results: only its error path makes them visible.
     */
    method LoadNASAAssetDetails(nasaId: string, exchange: Request.Exchange<Option<ImageLibrary.LibraryData>>)
      returns (sent: Request.Url, ghost atAwait: Snapshot)
      requires Valid()
      modifies this`loading, this`results, this`content
      ensures Valid()
      ensures sent == Request.Url(Request.ApiBase + "/images/captions/" + nasaId, [])
      ensures atAwait == old(Snap()).(loading := old(loading)[EarthRegion := true])
      ensures Snap() == DetailsSettled(atAwait, Request.Outcome(exchange))
    {
      ShowLoading(EarthRegion);
      atAwait := Snap();
      var outcome;
      sent, outcome := Request.MakeRequest("/images/captions/" + nasaId, [], exchange);
      match outcome {
        case Success(data) =>
          content := content[EarthRegion := Rendered(DetailsShown(ImageLibrary.DisplayDetails(data)))];
        case Failure(m) =>
          DisplayError(EarthRegion, m);
      }
      HideLoading(EarthRegion);
    }

    /**
     * Loads the Mars weather. A payload reporting an error is shown as an error and the
     * loader returns early, still hiding the loading indicator on the way out.
     */
    method LoadMarsWeather(exchange: Request.Exchange<Option<MarsWeather.MarsData>>)
      returns (sent: Request.Url, ghost atAwait: Snapshot)
      requires Valid()
      modifies this`loading, this`results, this`content
      ensures Valid()
      ensures sent == Request.Url(Request.ApiBase + "/mars", [])
      ensures atAwait == Began(old(Snap()), MarsRegion)
      ensures Snap() == Settled(atAwait, MarsRegion, MarsOutcome(Request.Outcome(exchange)))
    {
      Begin(MarsRegion);
      atAwait := Snap();
      var outcome;
      sent, outcome := Request.MakeRequest("/mars", [], exchange);
      match outcome {
        case Failure(m) =>
          DisplayError(MarsRegion, m);
        case Success(data) =>
          var backendError := MarsWeather.BackendError(data);
          if backendError.Some? {
            DisplayError(MarsRegion, backendError.value);
          } else {
            content := content[MarsRegion := Rendered(MarsShown(MarsWeather.DisplayMars(data)))];
            ShowResults(MarsRegion);
          }
      }
      HideLoading(MarsRegion);
    }

    /** Loads the EPIC earth images. */
    method LoadEPICImages(exchange: Request.Exchange<seq<Epic.EpicImage>>)
      returns (sent: Request.Url, ghost atAwait: Snapshot)
      requires Valid()
      modifies this`loading, this`results, this`content
      ensures Valid()
      ensures sent == Request.Url(Request.ApiBase + "/epic", [])
      ensures atAwait == Began(old(Snap()), EpicRegion)
      ensures Snap() == Settled(atAwait, EpicRegion, EpicOutcome(Request.Outcome(exchange)))
    {
      Begin(EpicRegion);
      atAwait := Snap();
      var outcome;
      sent, outcome := Request.MakeRequest("/epic", [], exchange);
      Settle(EpicRegion, EpicOutcome(outcome));
    }

    /** Loads the photos one rover took on one sol. */
    method LoadRoverPhotos(exchange: Request.Exchange<seq<Rover.Photo>>)
      returns (sent: Request.Url, ghost atAwait: Snapshot)
      requires Valid()
      modifies this`loading, this`results, this`content
      ensures Valid()
      ensures sent == Request.Url(Request.ApiBase + "/rover", Request.KeptQuery(RoverParams()))
      ensures atAwait == Began(old(Snap()), RoverRegion)
      ensures Snap() == Settled(atAwait, RoverRegion, RoverOutcome(Request.Outcome(exchange)))
    {
      Begin(RoverRegion);
      atAwait := Snap();
      var outcome;
      sent, outcome := Request.MakeRequest("/rover", RoverParams(), exchange);
      Settle(RoverRegion, RoverOutcome(outcome));
    }

    /** Loads twenty pictures into the gallery region. */
    method LoadGallery(exchange: Request.Exchange<seq<Apod.ApodData>>)
      returns (sent: Request.Url, ghost atAwait: Snapshot)
      requires Valid()
      modifies this`loading, this`results, this`content
      ensures Valid()
      ensures sent == Request.Url(Request.ApiBase + "/apod/multiple", Request.KeptQuery(CountParams(20)))
      ensures atAwait == Began(old(Snap()), GalleryRegion)
      ensures Snap() == Settled(atAwait, GalleryRegion, GalleryOutcome(Request.Outcome(exchange)))
    {
      Begin(GalleryRegion);
      atAwait := Snap();
      var outcome;
      sent, outcome := Request.MakeRequest("/apod/multiple", CountParams(20), exchange);
      Settle(GalleryRegion, GalleryOutcome(outcome));
    }

    /** Loads the server's cache counters. */
    method LoadStats(exchange: Request.Exchange<CacheStats>)
      returns (sent: Request.Url, ghost atAwait: Snapshot)
      requires Valid()
      modifies this`loading, this`results, this`content
      ensures Valid()
      ensures sent == Request.Url(Request.ApiBase + "/cache/stats", [])
      ensures atAwait == Began(old(Snap()), StatsRegion)
      ensures Snap() == Settled(atAwait, StatsRegion, StatsOutcome(Request.Outcome(exchange)))
    {
      Begin(StatsRegion);
      atAwait := Snap();
      var outcome;
      sent, outcome := Request.MakeRequest("/cache/stats", [], exchange);
      Settle(StatsRegion, StatsOutcome(outcome));
    }
  }
}
