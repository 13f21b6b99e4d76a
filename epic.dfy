/**
 * Earth imagery from the EPIC camera: the first few images, each shown from the
 * archive path that its date is rewritten into.
 */
module Epic {
  import opened Text

  const ArchiveBase := "https://epic.gsfc.nasa.gov/archive/natural/"
  const MaxShown := 6

  /** One image record: its date ('YYYY-MM-DD hh:mm:ss') and its image name. */
  datatype EpicImage = EpicImage(date: string, image: string)

  /** A shown image: where it is fetched from, and its caption (also its alt text). */
  datatype EpicTile = EpicTile(src: string, caption: string)

  /** `date.split(' ')[0]`: the day part of the date. */
  function DayPart(date: string): string {
    Split(date, ' ')[0]
  }

  /** `date.split(' ')[0].split('-').join('/')`: the day part with every '-' turned into '/'. */
  function ArchivePath(date: string): (p: string)
    ensures p == Replace(DayPart(date), '-', '/')
  {
    JoinSplit(DayPart(date), '-', '/');
    Join(Split(DayPart(date), '-'), '/')
  }

  /**
   * The archive path is the date's day part, which is the date up to its first space,
   * with every '-' turned into '/': so it has neither spaces nor dashes and is no
   * longer than the date.
   */
  lemma ArchivePathShape(date: string)
    ensures |DayPart(date)| <= |date| && DayPart(date) == date[..|DayPart(date)|]
    ensures |DayPart(date)| < |date| ==> date[|DayPart(date)|] == ' '
    ensures ArchivePath(date) == Replace(DayPart(date), '-', '/')
    ensures |ArchivePath(date)| == |DayPart(date)|
    ensures forall i :: 0 <= i < |ArchivePath(date)| ==> ArchivePath(date)[i] != '-' && ArchivePath(date)[i] != ' '
  {
    var day := DayPart(date);
    SplitFirstIsPrefix(date, ' ');
    ReplaceRemoves(day, '-', '/', '-');
    ReplaceRemoves(day, '-', '/', ' ');
  }

  function Tile(e: EpicImage): EpicTile {
    EpicTile(ArchiveBase + ArchivePath(e.date) + "/png/" + e.image + ".png", "EPIC " + e.date)
  }

  /** Shows the first six images, in order. */
  function DisplayEpic(images: seq<EpicImage>): (tiles: seq<EpicTile>)
    ensures |tiles| == if |images| < MaxShown then |images| else MaxShown
    ensures forall i :: 0 <= i < |tiles| ==> tiles[i] == Tile(images[i])
  {
    TakeMap(images, MaxShown, Tile)
  }
}
