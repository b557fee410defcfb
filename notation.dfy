/**
 * Square names of the algebraic notation (files 'a'..'h', ranks '1'..'8')
 * and their conversion to and from zero-based (row, col) board coordinates.
 * Row 0 is the top of the board, black's back rank, so it carries rank '8'.
 */
module Notation {

  datatype Error = InvalidCoordinates | InvalidFormat | InvalidCharacters

  datatype Result<T> = Ok(value: T) | Err(error: Error)

  const Files: seq<char> := ['a', 'b', 'c', 'd', 'e', 'f', 'g', 'h']
  const Ranks: seq<char> := ['8', '7', '6', '5', '4', '3', '2', '1']

  /** Position of the first occurrence of x in s, or -1 when x does not occur (Array.prototype.indexOf). */
  function IndexOf(s: seq<char>, x: char): (i: int)
    ensures -1 <= i < |s|
    ensures i == -1 <==> x !in s
    ensures 0 <= i ==> s[i] == x && x !in s[..i]
  {
    if s == [] then -1
    else if s[0] == x then 0
    else
      var j := IndexOf(s[1..], x);
      if j == -1 then -1
      else
        assert s[..j + 1] == [s[0]] + s[1..][..j];
        j + 1
  }

  /** The file letter of a column, computed from the character code instead of the table. */
  function FileLetter(col: int): char
    requires 0 <= col < 8
  {
    (('a' as int) + col) as char
  }

  /** The rank digit of a row: row 0 is rank '8', row 7 is rank '1'. */
  function RankDigit(row: int): char
    requires 0 <= row < 8
  {
    (('8' as int) - row) as char
  }

  function CoordsToNotation(row: int, col: int): (r: Result<string>)
    ensures r.Err? <==> !(0 <= row < 8 && 0 <= col < 8)
    ensures r.Err? ==> r.error == InvalidCoordinates
    ensures r.Ok? ==> r.value == [FileLetter(col), RankDigit(row)]
  {
    if row < 0 || row > 7 || col < 0 || col > 7 then Err(InvalidCoordinates)
    else
      TableEntries(row, col);
      Ok([Files[col]] + [Ranks[row]])
  }

  function NotationToCoords(notation: string): (r: Result<(int, int)>)
    ensures |notation| != 2 ==> r == Err(InvalidFormat)
    ensures |notation| == 2 ==>
      (r.Err? <==> notation[0] !in Files || notation[1] !in Ranks)
    ensures r.Err? && |notation| == 2 ==> r.error == InvalidCharacters
    ensures r.Ok? ==>
      0 <= r.value.0 < 8 && 0 <= r.value.1 < 8 &&
      notation == [FileLetter(r.value.1), RankDigit(r.value.0)]
  {
    if |notation| != 2 then Err(InvalidFormat)
    else
      var file := notation[0];
      var rank := notation[1];
      var col := IndexOf(Files, file);
      var row := IndexOf(Ranks, rank);
      if col == -1 || row == -1 then
        assert file !in Files || rank !in Ranks;
        Err(InvalidCharacters)
      else
        assert file in Files && rank in Ranks;
        TableEntries(row, col);
        assert notation == [Files[col], Ranks[row]];
        Ok((row, col))
  }

  /** Every on-board coordinate pair survives the trip through its square name. */
  lemma CoordsRoundTrip(row: int, col: int)
    requires 0 <= row < 8 && 0 <= col < 8
    ensures CoordsToNotation(row, col).Ok?
    ensures NotationToCoords(CoordsToNotation(row, col).value) == Ok((row, col))
  {
    var s := CoordsToNotation(row, col).value;
    FilesDistinct(col);
    RanksDistinct(row);
    assert s[0] == Files[col] && s[1] == Ranks[row];
  }

  /** Every accepted square name survives the trip through its coordinates. */
  lemma NotationRoundTrip(notation: string)
    requires NotationToCoords(notation).Ok?
    ensures var rc := NotationToCoords(notation).value;
      CoordsToNotation(rc.0, rc.1) == Ok(notation)
  {
  }

  /** The two lookup tables agree with the character-code definitions. */
  lemma TablesMatchCharCodes()
    ensures forall i | 0 <= i < 8 :: Files[i] == FileLetter(i) && Ranks[i] == RankDigit(i)
  {
  }

  lemma TableEntries(row: int, col: int)
    requires 0 <= row < 8 && 0 <= col < 8
    ensures Files[col] == FileLetter(col) && Ranks[row] == RankDigit(row)
  {
    TablesMatchCharCodes();
  }

  /** In a table without repeated entries, indexOf finds the one position of each entry. */
  lemma IndexOfDistinct(s: seq<char>, k: int)
    requires forall i, j | 0 <= i < j < |s| :: s[i] != s[j]
    requires 0 <= k < |s|
    ensures IndexOf(s, s[k]) == k
  {
    assert s[k] in s;
  }

  lemma FilesDistinct(col: int)
    requires 0 <= col < 8
    ensures IndexOf(Files, Files[col]) == col
  {
    TablesMatchCharCodes();
    IndexOfDistinct(Files, col);
  }

  lemma RanksDistinct(row: int)
    requires 0 <= row < 8
    ensures IndexOf(Ranks, Ranks[row]) == row
  {
    TablesMatchCharCodes();
    IndexOfDistinct(Ranks, row);
  }
}
