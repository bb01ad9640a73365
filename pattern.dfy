/**
 * The character-art letter 'e': a grid of 7 rows and 5 columns, printed
 * row by row.  The printed text is the result here.
 */
module LetterPattern {

  const Height: int := 7
  const Width: int := 5

  /** The character printed at row i, column j, by the branches of `printE` in order. */
  function Cell(i: int, j: int): char {
    if (i == 0 || i == Height - 1) && j > 0 && j < Width - 1 then '*'
    else if i == Height / 2 && j < Width then '*'
    else if i > 0 && i < Height - 1 && j == 0 then '*'
    else if i > Height / 2 && i < Height - 1 && j == Width - 1 then '*'
    else ' '
  }

  function Row(i: int): (r: string)
    ensures |r| == Width
  {
    seq(Width, j requires 0 <= j < Width => Cell(i, j))
  }

  /** The first n printed lines, each ended by a newline. */
  function Lines(n: nat): (s: string)
    ensures |s| == n * (Width + 1)
  {
    if n == 0 then [] else Lines(n - 1) + Row(n - 1) + "\n"
  }

  /** `printE`: the nested loops, one character at a time, a newline after each row. */
  method PrintE() returns (out: string)
    ensures out == Lines(Height)
  {
    out := [];
    for i := 0 to Height
      invariant out == Lines(i)
    {
      for j := 0 to Width
        invariant out == Lines(i) + Row(i)[..j]
      {
        if (i == 0 || i == Height - 1) && j > 0 && j < Width - 1 {
          out := out + "*";
        } else if i == Height / 2 && j < Width {
          out := out + "*";
        } else if i > 0 && i < Height - 1 && j == 0 {
          out := out + "*";
        } else if i > Height / 2 && i < Height - 1 && j == Width - 1 {
          out := out + "*";
        } else {
          out := out + " ";
        }
        assert Row(i)[..j + 1] == Row(i)[..j] + [Cell(i, j)];
      }
      assert Row(i)[..Width] == Row(i);
      out := out + "\n";
    }
  }

  /** `printPattern`: only 'e' prints anything. */
  method PrintPattern(character: char) returns (out: string)
    ensures out == (if character == 'e' then Lines(Height) else "")
  {
    out := "";
    if character == 'e' {
      out := PrintE();
    }
  }

  /** The letter described cell by cell, independently of the branch order. */
  predicate Star(i: int, j: int) {
    ((i == 0 || i == 6) && 1 <= j <= 3) || i == 3 || (j == 0 && 1 <= i <= 5) || (j == 4 && 3 <= i <= 5)
  }

  /**
   * Rows 0 and 6 have stars exactly at columns 1 to 3, row 3 is all stars,
   * column 0 is a star in rows 1 to 5, column 4 only in rows 3 to 5, and
   * every other cell is a space.
   */
  lemma CellShape(i: int, j: int)
    requires 0 <= i < Height && 0 <= j < Width
    ensures Cell(i, j) == (if Star(i, j) then '*' else ' ')
  {
  }

  /** Line i of the output sits at offset 6i, holds the row's five cells and ends with a newline. */
  lemma {:induction false} LinesLayout(n: nat, i: int, j: int)
    requires 0 <= i < n && 0 <= j < Width
    ensures Lines(n)[i * (Width + 1) + j] == Cell(i, j)
    ensures Lines(n)[i * (Width + 1) + Width] == '\n'
  {
    if i < n - 1 {
      LinesLayout(n - 1, i, j);
      assert Lines(n)[..(n - 1) * (Width + 1)] == Lines(n - 1);
    } else {
      assert Lines(n)[(n - 1) * (Width + 1)..] == Row(n - 1) + "\n";
    }
  }

  /** The printed 'e' is 7 lines of 5 characters, each cell a star or a space as the letter's shape says. */
  lemma PrintedLetter(i: int, j: int)
    requires 0 <= i < Height && 0 <= j < Width
    ensures |Lines(Height)| == Height * (Width + 1)
    ensures Lines(Height)[i * (Width + 1) + j] == (if Star(i, j) then '*' else ' ')
    ensures Lines(Height)[i * (Width + 1) + Width] == '\n'
  {
    LinesLayout(Height, i, j);
    CellShape(i, j);
  }
}
