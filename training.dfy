/**
 * The training-side feature preparation of model.py: the free-text
 * "Hair Issues" cell becomes a count of comma-separated pieces, and the
 * feature matrix takes eight named columns in a fixed order.
 */
module Training {
  import opened Wrappers

  /** A cell that pandas reads as missing becomes the empty string (fillna('')). */
  function FillMissing(cell: Option<string>): string {
    match cell
    case None => ""
    case Some(text) => text
  }

  /** Python's str.split with an explicit one-character separator. */
  function Split(s: string, sep: char): (pieces: seq<string>)
    ensures |pieces| >= 1
    ensures forall i :: 0 <= i < |pieces| ==> sep !in pieces[i]
  {
    if s == [] then [""]
    else
      var rest := Split(s[1..], sep);
      if s[0] == sep then [""] + rest
      else [[s[0]] + rest[0]] + rest[1..]
  }

  /** There is one more piece than there are separators. */
  lemma {:induction false} SplitCount(s: string, sep: char)
    ensures |Split(s, sep)| == multiset(s)[sep] + 1
  {
    if s != [] {
      SplitCount(s[1..], sep);
      assert s == [s[0]] + s[1..];
    }
  }

  /** Python's str.join: the pieces with the separator between neighbours. */
  function Join(pieces: seq<string>, sep: char): string {
    if pieces == [] then ""
    else if |pieces| == 1 then pieces[0]
    else pieces[0] + [sep] + Join(pieces[1..], sep)
  }

  /** Joining the pieces of a split gives back the original text. */
  lemma {:induction false} JoinSplit(s: string, sep: char)
    ensures Join(Split(s, sep), sep) == s
  {
    if s != [] {
      var rest := Split(s[1..], sep);
      JoinSplit(s[1..], sep);
      assert [s[0]] + s[1..] == s;
      if s[0] == sep {
        assert Split(s, sep) == [""] + rest;
        JoinCons("", rest, sep);
      } else if |rest| == 1 {
        assert Split(s, sep) == [[s[0]] + rest[0]];
      } else {
        assert Split(s, sep) == [[s[0]] + rest[0]] + rest[1..];
        JoinCons([s[0]] + rest[0], rest[1..], sep);
        JoinCons(rest[0], rest[1..], sep);
        assert [rest[0]] + rest[1..] == rest;
      }
    }
  }

  lemma JoinCons(first: string, rest: seq<string>, sep: char)
    requires rest != []
    ensures Join([first] + rest, sep) == first + [sep] + Join(rest, sep)
  {
    assert ([first] + rest)[1..] == rest;
  }

  /** Text without the separator is a single piece. */
  lemma {:induction false} SplitWithoutSeparator(s: string, sep: char)
    requires sep !in s
    ensures Split(s, sep) == [s]
  {
    if s != [] {
      SplitWithoutSeparator(s[1..], sep);
      assert [s[0]] + s[1..] == s;
    }
  }

  /** A separator-free piece followed by the separator splits off as the first piece. */
  lemma {:induction false} SplitAfterPiece(piece: string, sep: char, tail: string)
    requires sep !in piece
    ensures Split(piece + [sep] + tail, sep) == [piece] + Split(tail, sep)
  {
    var s := piece + [sep] + tail;
    if piece == [] {
      assert s == [sep] + tail;
      assert s[1..] == tail;
    } else {
      assert s[1..] == piece[1..] + [sep] + tail;
      SplitAfterPiece(piece[1..], sep, tail);
      assert [piece[0]] + piece[1..] == piece;
    }
  }

  /** Splitting a join of separator-free pieces gives back the pieces. */
  lemma {:induction false} SplitJoin(pieces: seq<string>, sep: char)
    requires |pieces| >= 1
    requires forall i :: 0 <= i < |pieces| ==> sep !in pieces[i]
    ensures Split(Join(pieces, sep), sep) == pieces
  {
    if |pieces| == 1 {
      SplitWithoutSeparator(pieces[0], sep);
    } else {
      SplitJoin(pieces[1..], sep);
      SplitAfterPiece(pieces[0], sep, Join(pieces[1..], sep));
    }
  }

  /**
   * The "Hair Issues Count" of one cell's text: the number of comma-separated
   * pieces, and 0 for the empty text (which Python treats as false).
   */
  function IssueCount(text: string): (n: nat)
    ensures text == "" ==> n == 0
    ensures text != "" ==> n == multiset(text)[','] + 1
  {
    if text == "" then 0
    else
      SplitCount(text, ',');
      |Split(text, ',')|
  }

  /** The count of a possibly missing cell: fill first, then count. */
  function IssueCountOfCell(cell: Option<string>): nat {
    IssueCount(FillMissing(cell))
  }

  lemma MissingCellCountsZero()
    ensures IssueCountOfCell(None) == 0
    ensures IssueCountOfCell(Some("")) == 0
  {
  }

  /** A non-empty cell counts at least one issue, even when it holds only separators. */
  lemma NonEmptyCellCountsAtLeastOne(text: string)
    requires text != ""
    ensures IssueCountOfCell(Some(text)) >= 1
  {
  }

  /** Two comma-free names joined by a comma, such as "Dandruff,Dryness", count as two issues. */
  lemma TwoNamesCountTwo(first: string, second: string)
    requires ',' !in first && ',' !in second
    ensures IssueCount(first + [','] + second) == 2
  {
    SplitAfterPiece(first, ',', second);
    SplitWithoutSeparator(second, ',');
  }

  /** A lone comma is two empty pieces, so it counts as two issues. */
  lemma LoneCommaCountsTwo()
    ensures IssueCount(",") == 2
  {
    assert "," == "" + [','] + "";
    SplitAfterPiece("", ',', "");
  }

  /** The feature columns of the training matrix, in the order in which they are selected. */
  const FeatureColumns: seq<string> := [
    "Stress Level", "Sleep Hours", "Water Intake (L)", "Pollution Exposure",
    "Hair Coloring Frequency", "Hair Issues Count", "Hair Care Budget", "Genetic/Hormonal Wellness"
  ]

  /** One dataset row after encoding: the categorical columns hold integer codes. */
  datatype EncodedRow = EncodedRow(
    stressLevel: int,
    sleepHours: real,
    waterIntake: real,
    pollutionExposure: int,
    hairColoringFrequency: int,
    hairIssuesCount: nat,
    hairCareBudget: int,
    geneticWellness: int)

  /** The value of a named column in a row, as the float the feature matrix holds; None for a column the row lacks. */
  function Cell(row: EncodedRow, column: string): Option<real> {
    if column == "Stress Level" then Some(row.stressLevel as real)
    else if column == "Sleep Hours" then Some(row.sleepHours)
    else if column == "Water Intake (L)" then Some(row.waterIntake)
    else if column == "Pollution Exposure" then Some(row.pollutionExposure as real)
    else if column == "Hair Coloring Frequency" then Some(row.hairColoringFrequency as real)
    else if column == "Hair Issues Count" then Some(row.hairIssuesCount as real)
    else if column == "Hair Care Budget" then Some(row.hairCareBudget as real)
    else if column == "Genetic/Hormonal Wellness" then Some(row.geneticWellness as real)
    else None
  }

  /** Selecting columns by name: the values in the order asked for, or the first missing name. */
  function SelectColumns(row: EncodedRow, columns: seq<string>): (r: Result<seq<real>, string>)
    ensures r.Success? <==> forall i :: 0 <= i < |columns| ==> Cell(row, columns[i]).Some?
    ensures r.Success? ==> |r.value| == |columns|
    ensures r.Success? ==> forall i :: 0 <= i < |columns| ==> r.value[i] == Cell(row, columns[i]).value
    ensures r.Failure? ==> r.error in columns && Cell(row, r.error).None?
  {
    if columns == [] then Success([])
    else
      match Cell(row, columns[0])
      case None => Failure(columns[0])
      case Some(v) =>
        match SelectColumns(row, columns[1..])
        case Failure(missing) => Failure(missing)
        case Success(vs) =>
          assert forall i :: 1 <= i < |columns| ==> ([v] + vs)[i] == vs[i - 1] && columns[i] == columns[1..][i - 1];
          Success([v] + vs)
  }
}
