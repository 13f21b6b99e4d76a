/** Mars rover photos: a fixed rover and sol are asked for, and the first few photos shown. */
module Rover {
  import opened Text

  const RoverName := "curiosity"
  const RoverSol := 1000
  const MaxShown := 6

  datatype Photo = Photo(imgSrc: string, roverName: string, sol: int, cameraName: string)

  /** A shown photo: its source, alt text, title and caption ('Sol <sol> - <camera>'). */
  datatype RoverTile = RoverTile(src: string, alt: string, title: string, caption: string)

  function Tile(p: Photo): RoverTile {
    RoverTile(p.imgSrc, "Rover " + p.roverName, p.roverName, "Sol " + IntToDecimal(p.sol) + " - " + p.cameraName)
  }

  /** Shows the first six photos, in order. */
  function DisplayRover(photos: seq<Photo>): (tiles: seq<RoverTile>)
    ensures |tiles| == if |photos| < MaxShown then |photos| else MaxShown
    ensures forall i :: 0 <= i < |tiles| ==> tiles[i] == Tile(photos[i])
  {
    TakeMap(photos, MaxShown, Tile)
  }
}
