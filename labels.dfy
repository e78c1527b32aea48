/**
 * Path conventions of the ants/bees image dataset and the positional label
 * derivation of `HymenopteraDataset.__getitem__` (utils.py).
 *
 * Images live under `./hymenoptera_data/<phase>/<class>/<name>.jpg`; the label
 * is read from a fixed character window of the path string, `[25:29]` for the
 * train phase and `[23:27]` for the val phase, and the strings "ants" and
 * "bees" are mapped to 0 and 1. Any other window content is returned as it is.
 */
module Labels {
  import opened Wrappers

  /** Root directory of both phases (`rootpath`). */
  const Root: string := "./hymenoptera_data/"

  /** Why no label can be derived: the phase is neither "train" nor "val", so no label is ever bound. */
  datatype Error = UnknownPhase

  /** The value `__getitem__` returns as label: an integer class or the raw window text. */
  datatype Label = Class(index: nat) | Raw(text: string)

  /** Directory prefix of every listed path of `phase`: `Root + phase + "/"`. */
  function PhaseDir(phase: string): string
  {
    Root + phase + "/"
  }

  /** The glob pattern `make_datapath_list` builds (and prints) for `phase`. */
  function GlobPattern(phase: string): string
  {
    Root + phase + "/**/*.jpg"
  }

  function Min(a: int, b: int): int { if a <= b then a else b }

  function Max(a: int, b: int): int { if a >= b then a else b }

  /**
   * Python's `s[i:j]` for non-negative bounds: bounds beyond the end are
   * clamped to the end and an empty range gives the empty string; it never fails.
   */
  function Slice<T>(s: seq<T>, i: nat, j: nat): (r: seq<T>)
    ensures |r| == if j <= i || |s| <= i then 0 else Min(j, |s|) - i
    ensures forall k :: 0 <= k < |r| ==> i + k < |s| && r[k] == s[i + k]
  {
    if |s| <= i || j <= i then [] else s[i..Min(j, |s|)]
  }

  /** The two comparisons of utils.py: "ants" becomes 0, "bees" becomes 1, anything else stays. */
  function ClassOf(text: string): (r: Label)
    ensures r == Class(0) <==> text == "ants"
    ensures r == Class(1) <==> text == "bees"
    ensures r.Raw? <==> text != "ants" && text != "bees"
    ensures r.Raw? ==> r.text == text
  {
    if text == "ants" then Class(0)
    else if text == "bees" then Class(1)
    else Raw(text)
  }

  /**
   * The label of the image at `path` in a dataset of phase `phase`. For a phase
   * other than "train" or "val" the source never binds `label`, so the access fails.
   */
  function LabelOf(phase: string, path: string): (r: Result<Label, Error>)
    ensures r.Success? <==> phase == "train" || phase == "val"
    ensures r.Failure? ==> r.error == UnknownPhase
  {
    if phase == "train" then Success(ClassOf(Slice(path, 25, 29)))
    else if phase == "val" then Success(ClassOf(Slice(path, 23, 27)))
    else Failure(UnknownPhase)
  }

  /** Where the label window of a known phase starts. */
  function WindowStart(phase: string): nat
  {
    if phase == "train" then 25 else 23
  }

  /** The hard-coded offsets are exactly the lengths of the two phase directories. */
  lemma WindowStartIsPhaseDirLength(phase: string)
    requires phase == "train" || phase == "val"
    ensures WindowStart(phase) == |PhaseDir(phase)|
  {
  }

  // The pattern is the phase directory followed by the `*.jpg` part; the glob is not
  // recursive, so its `**` matches exactly one directory level.
  lemma GlobPatternExtendsPhaseDir(phase: string)
    ensures GlobPattern(phase) == PhaseDir(phase) + "**/*.jpg"
  {
  }

  /** Slicing after a known prefix is slicing the remainder. */
  lemma SliceAfterPrefix<T>(a: seq<T>, b: seq<T>, i: nat, j: nat)
    ensures Slice(a + b, |a| + i, |a| + j) == Slice(b, i, j)
  {
  }

  /**
   * The offsets line up with the directory layout: for every path
   * `PhaseDir(phase) + rest`, the label is derived from the first four
   * characters of `rest` (fewer when `rest` is shorter).
   */
  lemma LabelAfterPhaseDir(phase: string, rest: string)
    requires phase == "train" || phase == "val"
    ensures LabelOf(phase, PhaseDir(phase) + rest) == Success(ClassOf(Slice(rest, 0, 4)))
  {
    SliceAfterPrefix(PhaseDir(phase), rest, 0, 4);
  }

  /** A path inside the `ants` directory is labelled 0, one inside `bees` is labelled 1. */
  lemma ClassDirectoryLabels(phase: string, rest: string)
    requires phase == "train" || phase == "val"
    ensures LabelOf(phase, PhaseDir(phase) + "ants" + rest) == Success(Class(0))
    ensures LabelOf(phase, PhaseDir(phase) + "bees" + rest) == Success(Class(1))
  {
  }

  /** Characters outside the phase's four-character window do not affect the label. */
  lemma LabelReadsOnlyWindow(phase: string, p: string, q: string)
    requires phase == "train" || phase == "val"
    requires Max(Min(|p|, WindowStart(phase) + 4), WindowStart(phase)) == Max(Min(|q|, WindowStart(phase) + 4), WindowStart(phase))
    requires forall k :: WindowStart(phase) <= k < WindowStart(phase) + 4 && k < |p| && k < |q| ==> p[k] == q[k]
    ensures LabelOf(phase, p) == LabelOf(phase, q)
  {
    var lo := WindowStart(phase);
    var sp, sq := Slice(p, lo, lo + 4), Slice(q, lo, lo + 4);
    forall k | 0 <= k < |sp| ensures sp[k] == sq[k] {
      assert sp[k] == p[lo + k];
    }
    assert sp == sq;
  }

  /** Whatever follows the window (the rest of the directory and the file name) is ignored. */
  lemma LabelIgnoresSuffix(phase: string, p: string, s: string)
    requires phase == "train" || phase == "val"
    requires |p| >= WindowStart(phase) + 4
    ensures LabelOf(phase, p + s) == LabelOf(phase, p)
  {
    var lo := WindowStart(phase);
    var l, r := Slice(p + s, lo, lo + 4), Slice(p, lo, lo + 4);
    forall k | 0 <= k < 4 ensures l[k] == r[k] {
      assert l[k] == (p + s)[lo + k];
    }
    assert l == r;
  }

  /** A path too short to reach the end of the window gives a truncated raw label, not an error. */
  lemma ShortPathLabel(phase: string, path: string)
    requires phase == "train" || phase == "val"
    requires |path| < WindowStart(phase) + 4
    ensures LabelOf(phase, path).Success?
    ensures LabelOf(phase, path).value.Raw?
    ensures |LabelOf(phase, path).value.text| ==
              if |path| <= WindowStart(phase) then 0 else |path| - WindowStart(phase)
  {
  }
}
