/**
 * The astronomy picture of the day: the display-language flag, the choice of which
 * title and explanation to show, and the galleries of several pictures.
 */
module Apod {
  import opened Wrappers
  import opened Text

  /** The values the page's language flag takes ('spanish' and 'english'). */
  datatype Language = Spanish | English

  /** The flag's value when the page loads. */
  const InitialLanguage: Language := Spanish

  const ToEnglishLabel := "Ver en Inglés"
  const ToSpanishLabel := "Ver en Español"

  /** The flag after the language button is pressed. */
  function Toggled(l: Language): (t: Language)
    ensures t != l
  {
    if l == Spanish then English else Spanish
  }

  /** Toggling twice restores the flag. */
  lemma ToggledTwice(l: Language)
    ensures Toggled(Toggled(l)) == l
  {
  }

  /** The `data` member of the picture-of-the-day response. */
  datatype ApodData = ApodData(
    mediaType: string,
    url: string,
    title: string,
    explanation: string,
    date: string,
    titleEs: Option<string>,
    explanationEs: Option<string>,
    copyright: Option<string>)

  datatype Media = Video(src: string) | Image(src: string, alt: string)

  /**
   * What the picture-of-the-day region shows: the language the text is in, the text,
   * the media element, the label of the language button when there is one, and the
   * copyright line when there is one.
   */
  datatype ApodView = ApodView(
    shown: Language,
    title: string,
    explanation: string,
    date: string,
    media: Media,
    toggleLabel: Option<string>,
    copyright: Option<string>)

  /** The picture carries both Spanish fields, and both are non-empty. */
  predicate HasTranslation(a: ApodData) {
    Truthy(a.explanationEs) && Truthy(a.titleEs)
  }

  /**
   * Renders one picture. `flag` is the global language flag, `None` when it is not
   * defined. Spanish text needs the flag to be Spanish and both translated fields;
   * the title and explanation always come from the same language; the button is
   * offered whenever a translation exists, whatever the flag says.
   */
  function DisplayApod(a: ApodData, flag: Option<Language>): (v: ApodView)
    ensures v.shown == Spanish <==> flag == Some(Spanish) && HasTranslation(a)
    ensures v.shown == Spanish ==> v.title == a.titleEs.value && v.explanation == a.explanationEs.value
    ensures v.shown == English ==> v.title == a.title && v.explanation == a.explanation
    ensures v.date == a.date
    ensures v.toggleLabel.Some? <==> HasTranslation(a)
    ensures v.toggleLabel.Some? ==> (v.toggleLabel.value == ToEnglishLabel <==> v.shown == Spanish)
    ensures v.toggleLabel.Some? ==> v.toggleLabel.value == ToEnglishLabel || v.toggleLabel.value == ToSpanishLabel
    ensures v.media.Video? <==> a.mediaType == "video"
    ensures v.media.src == a.url
    ensures v.media.Image? ==> v.media.alt == a.title
    ensures v.copyright.Some? <==> Truthy(a.copyright)
    ensures v.copyright.Some? ==> v.copyright == a.copyright
  {
    var showSpanish := flag.Some? && flag.value == Spanish && Truthy(a.explanationEs) && Truthy(a.titleEs);
    var media := if a.mediaType == "video" then Video(a.url) else Image(a.url, a.title);
    ApodView(
      if showSpanish then Spanish else English,
      if showSpanish then a.titleEs.value else a.title,
      if showSpanish then a.explanationEs.value else a.explanation,
      a.date,
      media,
      if HasTranslation(a) then Some(if showSpanish then ToEnglishLabel else ToSpanishLabel) else None,
      if Truthy(a.copyright) then a.copyright else None)
  }

  /** Without a translation the English text is shown whatever the flag says. */
  lemma UntranslatedShowsEnglish(a: ApodData, flag: Option<Language>)
    requires !HasTranslation(a)
    ensures DisplayApod(a, flag).title == a.title
    ensures DisplayApod(a, flag).explanation == a.explanation
    ensures DisplayApod(a, flag).toggleLabel == None
  {
  }

  /** With a translation, toggling the flag switches the language of the text. */
  lemma ToggleSwitchesText(a: ApodData, l: Language)
    requires HasTranslation(a)
    ensures DisplayApod(a, Some(Toggled(l))).shown == Toggled(DisplayApod(a, Some(l)).shown)
  {
  }

  /** Toggling twice shows the picture exactly as before. */
  lemma ToggleTwiceRestoresView(a: ApodData, l: Language)
    ensures DisplayApod(a, Some(Toggled(Toggled(l)))) == DisplayApod(a, Some(l))
  {
    ToggledTwice(l);
  }

  /** One tile of a picture gallery. */
  datatype GalleryTile = GalleryTile(src: string, alt: string, title: string, date: string)

  /** The galleries of several pictures show every picture, in order, with its title and date. */
  function DisplayGallery(apods: seq<ApodData>): (tiles: seq<GalleryTile>)
    ensures |tiles| == |apods|
    ensures forall i :: 0 <= i < |apods| ==>
      tiles[i].src == apods[i].url && tiles[i].alt == apods[i].title
      && tiles[i].title == apods[i].title && tiles[i].date == apods[i].date
  {
    seq(|apods|, i requires 0 <= i < |apods| => GalleryTile(apods[i].url, apods[i].title, apods[i].title, apods[i].date))
  }
}
