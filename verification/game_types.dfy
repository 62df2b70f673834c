/** Values shared by the session controller and the screens that read it. */
module GameTypes {

  /** Which screen the game is on. */
  datatype GameState = Welcome | Playing | Results

  /** A value that may be absent (the source's `string | null`). */
  datatype Option<T> = None | Some(value: T)

  /** What the lyric provider answers with. */
  datatype LyricData = LyricData(song: string, artist: string, lyrics: string)

  /** The record of one finished round. The controller also writes the number of
      hints used, although the declared record type does not list it. */
  datatype RoundResult = RoundResult(
    round: int,
    song: string,
    artist: string,
    correct: bool,
    timeUsed: int,
    points: int,
    hintsUsed: int)

  function Max(a: int, b: int): (m: int)
    ensures m >= a && m >= b
    ensures m == a || m == b
  {
    if a >= b then a else b
  }

  function Min(a: int, b: int): (m: int)
    ensures m <= a && m <= b
    ensures m == a || m == b
  {
    if a <= b then a else b
  }
}
