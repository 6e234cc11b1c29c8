/**
 * The board menu of `select_board_id`: the keys "1" to "5" pick one of five BrainFlow boards and
 * answer its `BoardIds` value; any other answer gives `None`.
 */
module BoardMenu {
  import opened Wrappers
  import opened Brainflow
  import opened DatasetBuilder
  import opened DatasetProperties

  /** The boards the menu offers, in menu order. */
  datatype Board = Muse2Bled | Cyton | Ganglion | Muse2016Bled | Unicorn

  /** The value of the board in BrainFlow's `BoardIds` enumeration. */
  function BoardIdOf(b: Board): int
  {
    match b
    case Muse2Bled => 22
    case Cyton => 0
    case Ganglion => 1
    case Muse2016Bled => 42
    case Unicorn => 8
  }

  /** The key that selects the board. */
  function MenuKey(b: Board): string
  {
    match b
    case Muse2Bled => "1"
    case Cyton => "2"
    case Ganglion => "3"
    case Muse2016Bled => "4"
    case Unicorn => "5"
  }

  /** `id_pairs`. */
  const IdPairs: map<string, int> := map["1" := 22, "2" := 0, "3" := 1, "4" := 42, "5" := 8]

  /** The lookup of `select_board_id` on the answer to its prompt. */
  function SelectBoardId(userSelect: string): Option<int>
  {
    if userSelect in IdPairs then Some(IdPairs[userSelect]) else None
  }

  /** The menu answers an id exactly for a single digit from 1 to 5. */
  lemma SelectBoardIdAccepts(userSelect: string)
    ensures SelectBoardId(userSelect).Some? <==> |userSelect| == 1 && '1' <= userSelect[0] <= '5'
  {
    if |userSelect| == 1 {
      assert userSelect == [userSelect[0]];
    }
  }

  /** Each board's key selects that board's id. */
  lemma MenuSelectsBoard(b: Board)
    ensures SelectBoardId(MenuKey(b)) == Some(BoardIdOf(b))
  {
  }

  /** Whatever id the menu answers belongs to the board whose key was typed. */
  lemma SelectedIdIsBoard(userSelect: string)
    requires SelectBoardId(userSelect).Some?
    ensures exists b: Board :: MenuKey(b) == userSelect && BoardIdOf(b) == SelectBoardId(userSelect).value
  {
    var b :=
      if userSelect == "1" then Muse2Bled
      else if userSelect == "2" then Cyton
      else if userSelect == "3" then Ganglion
      else if userSelect == "4" then Muse2016Bled
      else Unicorn;
    assert MenuKey(b) == userSelect;
  }

  /** Distinct boards have distinct ids, so the id answered identifies the board. */
  lemma BoardIdsDistinct(b: Board, c: Board)
    ensures BoardIdOf(b) == BoardIdOf(c) <==> b == c
  {
  }

  /**
   * `main` passes the menu's answer to `prepare_data`; for an unknown key that is `None`,
   * `int(None)` raises inside every file, and the dataset is empty.
   */
  lemma UnknownChoiceGivesEmptyDataset(userSelect: string, firstClass: string, secondClass: string,
                                       dirs: map<string, seq<FileEntry>>, shim: BoardShim,
                                       blacklisted: Option<set<string>>, reduce: Reducer)
    requires userSelect !in IdPairs
    requires firstClass in dirs && secondClass in dirs
    ensures PreparedSamples(firstClass, secondClass, dirs, SelectBoardId(userSelect), shim, blacklisted, reduce) == Some([])
  {
    NoBoardNoData(firstClass, secondClass, dirs, shim, blacklisted, reduce);
  }
}
