/**
 * The path lister `make_datapath_list` and the `HymenopteraDataset` wrapper
 * of utils.py. The file-system enumeration (`glob.glob`) and image decoding
 * (`Image.open`, the transform) are outside the model: the enumeration's
 * result is a parameter, and an item carries the path its image is read from.
 */
module Dataset {
  import opened Wrappers
  import opened Labels

  /**
   * `make_datapath_list(phase)`: builds the glob pattern for `phase` (the string
   * it prints) and copies the paths the glob yields, in their order, into a new list.
   */
  method MakeDatapathList(phase: string, globbed: seq<string>) returns (pattern: string, pathList: seq<string>)
    ensures pattern == PhaseDir(phase) + "**/*.jpg"
    ensures pathList == globbed
  {
    pattern := GlobPattern(phase);
    GlobPatternExtendsPhaseDir(phase);
    pathList := [];
    for i := 0 to |globbed|
      invariant pathList == globbed[..i]
    {
      pathList := pathList + [globbed[i]];
    }
  }

  /** One element of the dataset: the path its image is opened from, and its label. */
  datatype Item = Item(path: string, target: Label)

  /** Why `__getitem__` produces no item. */
  datatype ItemError =
    | IndexOutOfRange          // `file_list[index]` raised IndexError
    | NoLabel(cause: Error)    // the label could not be derived from the path

  /** The position Python's `file_list[index]` reads, negative indices counting from the end. */
  function PyIndex(index: int, length: nat): int
  {
    if index < 0 then index + length else index
  }

  class HymenopteraDataset {
    const fileList: seq<string>
    const phase: string

    constructor (fileList: seq<string>, phase: string)
      ensures this.fileList == fileList && this.phase == phase
    {
      this.fileList := fileList;
      this.phase := phase;
    }

    /** `__len__`: the number of listed paths. */
    method Len() returns (n: nat)
      ensures n == |fileList|
    {
      n := |fileList|;
    }

    /**
     * `__getitem__`: reads `file_list[index]` (failing outside `-len .. len-1`)
     * and derives its label from the phase's character window.
     */
    method GetItem(index: int) returns (r: Result<Item, ItemError>)
      ensures r == Failure(IndexOutOfRange) <==> !(-|fileList| <= index < |fileList|)
      ensures -|fileList| <= index < |fileList| ==>
        0 <= PyIndex(index, |fileList|) < |fileList| &&
        var path := fileList[PyIndex(index, |fileList|)];
        if phase == "train" || phase == "val"
        then r == Success(Item(path, LabelOf(phase, path).value))
        else r == Failure(NoLabel(UnknownPhase))
    {
      if !(-|fileList| <= index < |fileList|) {
        return Failure(IndexOutOfRange);
      }
      var path := fileList[if index < 0 then index + |fileList| else index];
      var derived := LabelOf(phase, path);
      match derived {
        case Success(l) => r := Success(Item(path, l));
        case Failure(e) => r := Failure(NoLabel(e));
      }
    }
  }

  /**
   * A dataset over paths listed under the phase's class directories labels
   * every index 0 .. len-1 by its directory: 0 for `ants/`, 1 for `bees/`.
   */
  lemma ListedPathsGetClassLabels(phase: string, paths: seq<string>, i: nat)
    requires phase == "train" || phase == "val"
    requires forall p :: p in paths ==> InClassDir(phase, p)
    requires i < |paths|
    ensures |paths[i]| >= |PhaseDir(phase)| + 5
    ensures paths[i][|PhaseDir(phase)|..|PhaseDir(phase)| + 5] == "ants/" ==> LabelOf(phase, paths[i]) == Success(Class(0))
    ensures paths[i][|PhaseDir(phase)|..|PhaseDir(phase)| + 5] == "bees/" ==> LabelOf(phase, paths[i]) == Success(Class(1))
  {
    var p := paths[i];
    var d := PhaseDir(phase);
    assert InClassDir(phase, p);
    var cls, rest := p[|d|..|d| + 4], p[|d| + 4..];
    assert p == d + cls + rest;
    WindowStartIsPhaseDirLength(phase);
    assert cls == p[|d|..|d| + 5][..4];
    assert Slice(p, |d|, |d| + 4) == cls;
    if cls == "ants" {
      ClassDirectoryLabels(phase, rest);
    } else {
      assert cls == "bees";
      ClassDirectoryLabels(phase, rest);
    }
  }

  /** `path` names a file inside the `ants` or `bees` directory of `phase`. */
  predicate InClassDir(phase: string, path: string)
  {
    var d := PhaseDir(phase);
    |path| >= |d| + 5 && path[..|d|] == d &&
    (path[|d|..|d| + 5] == "ants/" || path[|d|..|d| + 5] == "bees/")
  }
}
