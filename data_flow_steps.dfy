/**
 * The data-flow panel of a Snyk Code suggestion: turns the markers of an
 * analysis suggestion into a numbered list of steps, each labelled
 * "file:line" and carrying the coordinates its navigate command opens.
 */
module DataFlowSteps {

  import opened Strings

  /**
   * A place in a file that a marker points to. `fileName` is relative to the
   * solution and starts with '/'; `rows` and `columns` are 1-based [start, end] pairs.
   */
  datatype Position = Position(fileName: string, rows: seq<int>, columns: seq<int>)

  /** An analysis marker: the positions of one data-flow fact. */
  datatype Marker = Marker(positions: seq<Position>)

  /**
   * The arguments the navigate command of a step passes to the editor:
   * the marker's file name (resolved against the solution when the command
   * runs), 0-based start and end lines, 0-based start column and the end
   * column as the marker gives it.
   */
  datatype NavigationTarget = NavigationTarget(
    fileName: string, startLine: int, startColumn: int, endLine: int, endColumn: int)

  /** One row of the data-flow list. */
  datatype DataFlowStep = DataFlowStep(fileName: string, rowNumber: string, navigation: NavigationTarget)

  const ClearedHeader := "Data Flow - 0 steps"

  /**
   * A position the panel can list: it carries the [start, end] pairs that the
   * panel reads by index, and a file name from which the leading '/' can be
   * cut when the line content is read.
   */
  predicate PositionWellFormed(p: Position) {
    |p.rows| >= 2 && |p.columns| >= 2 && |p.fileName| >= 1
  }

  predicate AllPositionsWellFormed(ps: seq<Position>) {
    forall k :: 0 <= k < |ps| ==> PositionWellFormed(ps[k])
  }

  predicate WellFormed(markers: seq<Marker>) {
    forall i, j :: 0 <= i < |markers| && 0 <= j < |markers[i].positions| ==>
      PositionWellFormed(markers[i].positions[j])
  }

  /** The header after `n` steps were added one by one: "Data Flow - n step", plural only above one. */
  function StepsHeader(n: nat): string {
    "Data Flow - " + NatToString(n) + " step" + (if n > 1 then "s" else "")
  }

  /** The header of a list of `n` steps built by Clear and then AddStep. */
  function HeaderFor(n: nat): string {
    if n == 0 then ClearedHeader else StepsHeader(n)
  }

  /** The header is plural exactly when more than one step was added. */
  lemma StepsHeaderPlural(n: nat)
    requires n >= 1
    ensures EndsWith(StepsHeader(n), "steps") <==> n > 1
    ensures EndsWith(StepsHeader(n), " step") <==> n == 1
  {
    var h := StepsHeader(n);
    if n == 1 {
      assert h[|h| - 5..] == " step";
    } else {
      assert h[|h| - 5..] == "steps";
    }
  }

  /** The label of a position: the file name after its last '/', a colon, then the first row. */
  function StepLabel(p: Position): (text: string)
    requires PositionWellFormed(p)
    ensures StartsWith(text, AfterLast(p.fileName, '/'))
    ensures text[|AfterLast(p.fileName, '/')|..] == ":" + IntToString(p.rows[0])
  {
    var name := AfterLast(p.fileName, '/');
    ConcatParts(name, ":" + IntToString(p.rows[0]));
    name + (":" + IntToString(p.rows[0]))
  }

  /** The step for `p` when it is the `index`-th step of the list. */
  function StepOf(p: Position, index: nat): (step: DataFlowStep)
    requires PositionWellFormed(p)
    ensures step.fileName == StepLabel(p)
    ensures AllDigits(step.rowNumber) && ParseNat(step.rowNumber) == index
    ensures step.navigation.fileName == p.fileName
    ensures step.navigation.startLine + 1 == p.rows[0] && step.navigation.endLine + 1 == p.rows[1]
    ensures step.navigation.startColumn + 1 == p.columns[0] && step.navigation.endColumn == p.columns[1]
  {
    ParseNatToString(index);
    DataFlowStep(
      StepLabel(p),
      NatToString(index),
      NavigationTarget(p.fileName, p.rows[0] - 1, p.columns[0] - 1, p.rows[1] - 1, p.columns[1]))
  }

  /** The positions of all markers, marker by marker, each marker's in its own order. */
  function Positions(markers: seq<Marker>): seq<Position>
    decreases |markers|
  {
    if markers == [] then [] else Positions(markers[..|markers| - 1]) + markers[|markers| - 1].positions
  }

  lemma {:induction false} PositionsAppend(a: seq<Marker>, b: seq<Marker>)
    ensures Positions(a + b) == Positions(a) + Positions(b)
    decreases |b|
  {
    if b != [] {
      var ab := a + b;
      assert ab[..|ab| - 1] == a + b[..|b| - 1];
      PositionsAppend(a, b[..|b| - 1]);
    } else {
      assert a + b == a;
    }
  }

  lemma {:induction false} PositionsWellFormed(markers: seq<Marker>)
    requires WellFormed(markers)
    ensures AllPositionsWellFormed(Positions(markers))
    decreases |markers|
  {
    if markers != [] {
      var init := markers[..|markers| - 1];
      assert WellFormed(init) by {
        forall i, j | 0 <= i < |init| && 0 <= j < |init[i].positions|
          ensures PositionWellFormed(init[i].positions[j])
        {
          assert init[i] == markers[i];
        }
      }
      PositionsWellFormed(init);
      var last := markers[|markers| - 1];
      forall k | |Positions(init)| <= k < |Positions(markers)|
        ensures PositionWellFormed(Positions(markers)[k])
      {
        assert Positions(markers)[k] == last.positions[k - |Positions(init)|];
      }
    }
  }

  /** Taking one marker more adds its positions after those of the markers before it. */
  lemma MarkerPrefixStep(markers: seq<Marker>, i: nat)
    requires i < |markers|
    ensures Positions(markers[..i + 1]) == Positions(markers[..i]) + markers[i].positions
  {
    assert markers[..i + 1][..i] == markers[..i];
  }

  /** Numbered steps for `ps`, the first of them numbered `first`. */
  function StepsFrom(ps: seq<Position>, first: nat): (steps: seq<DataFlowStep>)
    requires AllPositionsWellFormed(ps)
    ensures |steps| == |ps|
  {
    seq(|ps|, k requires 0 <= k < |ps| => StepOf(ps[k], first + k))
  }

  /** The steps the panel lists for `markers`: one per position, numbered from 1. */
  function Steps(markers: seq<Marker>): (steps: seq<DataFlowStep>)
    requires WellFormed(markers)
    ensures |steps| == |Positions(markers)|
  {
    PositionsWellFormed(markers);
    StepsFrom(Positions(markers), 1)
  }

  /**
   * The `j`-th position of the `i`-th marker is listed as step number
   * n + j + 1, where n counts the positions of the markers before it: steps
   * follow marker order and, within a marker, position order, numbered 1, 2, 3, ...
   */
  lemma StepOfMarkerPosition(markers: seq<Marker>, i: nat, j: nat)
    requires WellFormed(markers)
    requires i < |markers| && j < |markers[i].positions|
    ensures var k := |Positions(markers[..i])| + j;
      k < |Steps(markers)| && Steps(markers)[k] == StepOf(markers[i].positions[j], k + 1)
  {
    MarkerPositionIndex(markers, i, j);
  }

  /** Position j of marker i comes after the positions of the markers before it. */
  lemma MarkerPositionIndex(markers: seq<Marker>, i: nat, j: nat)
    requires i < |markers| && j < |markers[i].positions|
    ensures var k := |Positions(markers[..i])| + j;
      k < |Positions(markers)| && Positions(markers)[k] == markers[i].positions[j]
  {
    var before, rest := markers[..i], markers[i + 1..];
    assert markers == before + [markers[i]] + rest;
    PositionsAppend(before + [markers[i]], rest);
    PositionsAppend(before, [markers[i]]);
    assert Positions([markers[i]]) == markers[i].positions by {
      assert [markers[i]][..0] == [];
    }
  }

  /** Step k (0-based) is numbered k + 1. */
  lemma StepsNumberedConsecutively(markers: seq<Marker>, k: nat)
    requires WellFormed(markers) && k < |Steps(markers)|
    ensures Steps(markers)[k].rowNumber == NatToString(k + 1)
  {
  }

  lemma StepsFromAppend(ps: seq<Position>, p: Position)
    requires AllPositionsWellFormed(ps)
    requires PositionWellFormed(p)
    ensures StepsFrom(ps + [p], 1) == StepsFrom(ps, 1) + [StepOf(p, |ps| + 1)]
  {
    var l, r := StepsFrom(ps + [p], 1), StepsFrom(ps, 1) + [StepOf(p, |ps| + 1)];
    forall k | 0 <= k < |l| ensures l[k] == r[k] {
      if k < |ps| {
        assert (ps + [p])[k] == ps[k];
      }
    }
  }

  /**
   * `Path.Combine(path1, path2)` on Windows: `path2` when it is rooted or
   * `path1` is empty, `path1` when `path2` is empty, otherwise the two joined
   * by '\' unless `path1` already ends with a separator.
   */
  function PathCombine(path1: string, path2: string): (r: string)
    ensures EndsWith(r, path2)
    ensures path2 == "" ==> r == path1
    ensures path2 != "" && (path1 == "" || IsPathRooted(path2)) ==> r == path2
    ensures path1 != "" && path2 != "" && !IsPathRooted(path2) ==> StartsWith(r, path1)
    ensures path1 != "" && path2 != "" && !IsPathRooted(path2) && IsSeparator(path1[|path1| - 1]) ==>
      r == path1 + path2
    ensures path1 != "" && path2 != "" && !IsPathRooted(path2) && !IsSeparator(path1[|path1| - 1]) ==>
      r == path1 + "\\" + path2
  {
    if path2 == "" then path1
    else if path1 == "" || IsPathRooted(path2) then path2
    else if IsSeparator(path1[|path1| - 1]) then path1 + path2
    else
      var r := path1 + "\\" + path2;
      assert r[..|path1|] == path1;
      r
  }

  predicate IsSeparator(c: char) {
    c == '\\' || c == '/' || c == ':'
  }

  /** A path that starts with a separator or a drive letter and colon. */
  predicate IsPathRooted(p: string) {
    (|p| >= 1 && (p[0] == '\\' || p[0] == '/')) || (|p| >= 2 && p[1] == ':')
  }

  /**
   * The editor path of a marker's file: the solution path combined with the
   * file name less its first character (the leading '/').
   */
  function GetFullPath(solutionPath: string, file: string): (r: string)
    requires |file| >= 1
    ensures EndsWith(r, file[1..])
    ensures |file| == 1 ==> r == solutionPath
    ensures |file| > 1 && (solutionPath == "" || IsPathRooted(file[1..])) ==> r == file[1..]
    ensures solutionPath != "" && |file| > 1 && !IsPathRooted(file[1..]) && IsSeparator(solutionPath[|solutionPath| - 1]) ==>
      r == solutionPath + file[1..]
    ensures solutionPath != "" && |file| > 1 && !IsPathRooted(file[1..]) && !IsSeparator(solutionPath[|solutionPath| - 1]) ==>
      r == solutionPath + "\\" + file[1..]
  {
    PathCombine(solutionPath, file[1..])
  }

  /** The panel: its list of steps, its header text and whether it is shown. */
  class DataFlowStepsControl {
    var steps: seq<DataFlowStep>
    var header: string
    var visible: bool

    constructor ()
      ensures steps == []
    {
      steps := [];
      header := "";
      visible := false;
    }

    /** The header names the number of steps listed. */
    predicate HeaderShowsCount()
      reads this
    {
      header == HeaderFor(|steps|)
    }

    /** Empties the list and resets the header. */
    method Clear()
      modifies this
      ensures steps == [] && header == ClearedHeader && visible == old(visible)
    {
      steps := [];
      header := ClearedHeader;
    }

    /** Appends one step and updates the header to the new count. */
    method AddStep(step: DataFlowStep)
      modifies this
      ensures steps == old(steps) + [step]
      ensures header == StepsHeader(|steps|) && HeaderShowsCount() && visible == old(visible)
    {
      steps := steps + [step];
      var stepsCount := |steps|;
      header := StepsHeader(stepsCount);
    }

    /**
     * Replaces the list with the steps of `markers`, shows the panel exactly
     * when there is a marker, and leaves the header at the final count.
     */
    method Display(markers: seq<Marker>)
      requires WellFormed(markers)
      modifies this
      ensures visible == (|markers| > 0)
      ensures steps == Steps(markers)
      ensures header == HeaderFor(|steps|)
    {
      Clear();
      visible := |markers| > 0;
      var index := 1;
      var mi := 0;
      assert markers[..0] == [];
      while mi < |markers|
        invariant 0 <= mi <= |markers|
        invariant AllPositionsWellFormed(Positions(markers[..mi]))
        invariant steps == StepsFrom(Positions(markers[..mi]), 1)
        invariant index == |steps| + 1
        invariant visible == (|markers| > 0)
        invariant HeaderShowsCount()
      {
        var marker := markers[mi];
        assert AllPositionsWellFormed(marker.positions) by {
          forall j | 0 <= j < |marker.positions| ensures PositionWellFormed(marker.positions[j]) {
            assert PositionWellFormed(markers[mi].positions[j]);
          }
        }
        index := AddPositions(Positions(markers[..mi]), marker.positions, index);
        MarkerPrefixStep(markers, mi);
        mi := mi + 1;
      }
      assert markers[..mi] == markers;
    }

    /**
     * The inner loop of Display: adds one step per position of a marker,
     * numbering on from `index`, and returns the next number.
     */
    method AddPositions(ghost done: seq<Position>, positions: seq<Position>, index: nat) returns (next: nat)
      requires AllPositionsWellFormed(done)
      requires AllPositionsWellFormed(positions)
      requires steps == StepsFrom(done, 1) && index == |steps| + 1
      requires HeaderShowsCount()
      modifies this
      ensures AllPositionsWellFormed(done + positions)
      ensures steps == StepsFrom(done + positions, 1) && next == |steps| + 1
      ensures HeaderShowsCount()
      ensures visible == old(visible)
    {
      next := index;
      var pi := 0;
      ghost var listed := done;
      while pi < |positions|
        invariant 0 <= pi <= |positions|
        invariant listed == done + positions[..pi]
        invariant AllPositionsWellFormed(listed)
        invariant steps == StepsFrom(listed, 1)
        invariant next == |steps| + 1
        invariant visible == old(visible)
        invariant HeaderShowsCount()
      {
        next := AddPositionStep(listed, positions[pi], next);
        assert done + positions[..pi + 1] == listed + [positions[pi]];
        listed := listed + [positions[pi]];
        pi := pi + 1;
      }
      assert positions[..pi] == positions;
    }

    /** One pass of the inner loop: the step for `p`, numbered `index`, is added. */
    method AddPositionStep(ghost listed: seq<Position>, p: Position, index: nat) returns (next: nat)
      requires AllPositionsWellFormed(listed) && PositionWellFormed(p)
      requires steps == StepsFrom(listed, 1) && index == |steps| + 1
      modifies this
      ensures next == index + 1 && HeaderShowsCount() && visible == old(visible)
      ensures AllPositionsWellFormed(listed + [p])
      ensures steps == StepsFrom(listed + [p], 1)
    {
      var step := StepOf(p, index);
      StepsFromAppend(listed, p);
      AddStep(step);
      next := index + 1;
    }
  }
}
