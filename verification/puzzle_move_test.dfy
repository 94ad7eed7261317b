/**
 * The puzzle move test (`moveTest`): after each move on the puzzle board it
 * compares the moves played since the puzzle started with the solution and
 * decides whether the puzzle is lost, won, or goes on with the next
 * solution move. The verdict is also written to the current tree node
 * (`vm.node.puzzle`); here that write is the returned `mark`.
 */
module PuzzleMoveTest {
  import opened Options
  import opened ShogiRules

  datatype Mode = Play | Try | View

  /** A node of the analysis tree, as far as the test reads it. */
  datatype TreeNode = TreeNode(ply: nat, usi: string, san: string, fen: Position)

  /** The puzzle view model: the mode, the current and initial tree paths, the current node and the nodes from the root to it. */
  datatype Vm = Vm(mode: Mode, path: string, initialPath: string, node: TreeNode, nodeList: seq<TreeNode>, pov: Color)

  /** The values the test writes to `vm.node.puzzle`. */
  datatype Mark = MarkWin | MarkFail | MarkGood

  /** `MoveTestReturn`: nothing, 'fail', 'win', or the next solution move to play. */
  datatype Verdict = NoVerdict | Fail | Win | Next(move: Option<Move>, fen: Position, path: string)

  /** A tree path is the concatenation of two-character node ids: `contains` is prefix, `size` the number of ids. */
  predicate PathContains(path: string, prefix: string) {
    prefix <= path
  }

  function PathSize(path: string): nat {
    |path| / 2
  }

  /** Sente plays on even plies. */
  function PlyColor(ply: nat): Color {
    if ply % 2 == 0 then Sente else Gote
  }

  /** `nodeList.slice(size(initialPath) + 1)`: the nodes played after the puzzle's initial node. */
  function PlayedNodes(vm: Vm): (nodes: seq<TreeNode>)
    ensures |nodes| == if PathSize(vm.initialPath) + 1 <= |vm.nodeList| then |vm.nodeList| - PathSize(vm.initialPath) - 1 else 0
    ensures forall i | 0 <= i < |nodes| :: nodes[i] == vm.nodeList[PathSize(vm.initialPath) + 1 + i]
  {
    var start := PathSize(vm.initialPath) + 1;
    if start <= |vm.nodeList| then vm.nodeList[start..] else []
  }

  /** The test looks at the moves only outside view mode, inside the puzzle, and right after a move of the solver's side. */
  predicate Tested(vm: Vm) {
    vm.mode != View && PathContains(vm.path, vm.initialPath) && Opposite(PlyColor(vm.node.ply)) == vm.pov
  }

  /** `lishogiCharToRole(san[0])`, with no role for an empty SAN. */
  function SanRole(rules: Rules, san: string): Option<Role> {
    if san == [] then None else rules.charToRole(san[0])
  }

  /**
   * The `i`th played move agrees with the solution: the solution has an
   * `i`th move and the played move is that move, or differs from it only
   * in a forced promotion.
   */
  predicate Agrees(rules: Rules, node: TreeNode, solution: seq<string>, i: nat, turn: Color) {
    i < |solution|
    && (node.usi == solution[i] || IsForcedPromotion(rules, node.usi, solution[i], turn, SanRole(rules, node.san)))
  }

  /** The scan passes node `j`: its position is not checkmate and its move agrees with the solution. */
  predicate Passes(rules: Rules, nodes: seq<TreeNode>, solution: seq<string>, turn: Color, j: nat)
    requires j < |nodes|
  {
    !rules.isCheckmate(nodes[j].fen) && Agrees(rules, nodes[j], solution, j, turn)
  }

  predicate PassesBefore(rules: Rules, nodes: seq<TreeNode>, solution: seq<string>, turn: Color, k: nat)
    requires k <= |nodes|
  {
    forall j | 0 <= j < k :: Passes(rules, nodes, solution, turn, j)
  }

  /** The scan stops at node `k` with a win: the nodes before it pass and its position is checkmate. */
  predicate MatesAt(rules: Rules, nodes: seq<TreeNode>, solution: seq<string>, turn: Color, k: nat) {
    k < |nodes| && PassesBefore(rules, nodes, solution, turn, k) && rules.isCheckmate(nodes[k].fen)
  }

  /** The scan stops at node `k` with a failure: the nodes before it pass, and it is not checkmate but disagrees with the solution. */
  predicate MissesAt(rules: Rules, nodes: seq<TreeNode>, solution: seq<string>, turn: Color, k: nat) {
    k < |nodes| && PassesBefore(rules, nodes, solution, turn, k)
    && !rules.isCheckmate(nodes[k].fen) && !Agrees(rules, nodes[k], solution, k, turn)
  }

  /** `puzzle.solution[n]` is a non-empty text (JavaScript truthiness). */
  predicate HasNext(solution: seq<string>, n: nat) {
    n < |solution| && solution[n] != ""
  }

  /**
   * `moveTest`. Outside the tested situations there is no verdict and no
   * mark. Otherwise the played nodes are scanned in order: the first
   * checkmate position wins, the first disagreeing move fails; when every
   * node passes, the puzzle is won if the solution has no further move and
   * otherwise goes on with that move, from the current position and path.
   */
  method MoveTest(rules: Rules, vm: Vm, solution: seq<string>) returns (r: Verdict, mark: Option<Mark>)
    ensures r == NoVerdict <==> !Tested(vm)
    ensures mark == None <==> r == NoVerdict
    ensures r == Win <==> mark == Some(MarkWin)
    ensures r == Fail <==> mark == Some(MarkFail)
    ensures r.Next? <==> mark == Some(MarkGood)
    ensures Tested(vm) ==> var nodes, turn := PlayedNodes(vm), Opposite(vm.pov);
      && (r == Fail <==> exists k: nat :: MissesAt(rules, nodes, solution, turn, k))
      && (r == Win <==>
            (exists k: nat :: MatesAt(rules, nodes, solution, turn, k))
            || (PassesBefore(rules, nodes, solution, turn, |nodes|) && !HasNext(solution, |nodes|)))
      && (r.Next? <==> PassesBefore(rules, nodes, solution, turn, |nodes|) && HasNext(solution, |nodes|))
    ensures r.Next? ==> r == Next(rules.parseUsi(solution[|PlayedNodes(vm)|]), vm.node.fen, vm.path)
  {
    if vm.mode == View || !PathContains(vm.path, vm.initialPath) {
      return NoVerdict, None;
    }
    var playedByColor := Opposite(PlyColor(vm.node.ply));
    if playedByColor != vm.pov {
      return NoVerdict, None;
    }
    var nodes := PlayedNodes(vm);
    var turn := Opposite(playedByColor);
    for i := 0 to |nodes|
      invariant PassesBefore(rules, nodes, solution, turn, i)
    {
      if rules.isCheckmate(nodes[i].fen) {
        assert MatesAt(rules, nodes, solution, turn, i);
        StopIsFirst(rules, nodes, solution, turn, i);
        return Win, Some(MarkWin);
      }
      var usi := nodes[i].usi;
      if i >= |solution| || (usi != solution[i] && !IsForcedPromotion(rules, usi, solution[i], turn, SanRole(rules, nodes[i].san))) {
        assert MissesAt(rules, nodes, solution, turn, i);
        StopIsFirst(rules, nodes, solution, turn, i);
        return Fail, Some(MarkFail);
      }
    }
    NoStopWhenAllPass(rules, nodes, solution, turn);
    if !HasNext(solution, |nodes|) {
      return Win, Some(MarkWin);
    }
    return Next(rules.parseUsi(solution[|nodes|]), vm.node.fen, vm.path), Some(MarkGood);
  }

  /**
   * The scan stops at most once: where a node fails to pass after passing
   * ones, no later prefix passes and no other node is a stopping point.
   */
  lemma {:induction false} StopIsFirst(rules: Rules, nodes: seq<TreeNode>, solution: seq<string>, turn: Color, k: nat)
    requires k < |nodes| && PassesBefore(rules, nodes, solution, turn, k) && !Passes(rules, nodes, solution, turn, k)
    ensures forall m: nat | k < m <= |nodes| :: !PassesBefore(rules, nodes, solution, turn, m)
    ensures forall m: nat :: MatesAt(rules, nodes, solution, turn, m) ==> m == k
    ensures forall m: nat :: MissesAt(rules, nodes, solution, turn, m) ==> m == k
  {
    forall m: nat | k < m <= |nodes|
      ensures !PassesBefore(rules, nodes, solution, turn, m)
    {
      assert !Passes(rules, nodes, solution, turn, k);
    }
    forall m: nat | m < k
      ensures !rules.isCheckmate(nodes[m].fen) && Agrees(rules, nodes[m], solution, m, turn)
    {
      assert Passes(rules, nodes, solution, turn, m);
    }
  }

  /** When every played node passes, the scan stops nowhere. */
  lemma NoStopWhenAllPass(rules: Rules, nodes: seq<TreeNode>, solution: seq<string>, turn: Color)
    requires PassesBefore(rules, nodes, solution, turn, |nodes|)
    ensures forall k: nat :: !MatesAt(rules, nodes, solution, turn, k) && !MissesAt(rules, nodes, solution, turn, k)
  {
    forall k: nat | k < |nodes|
      ensures !MatesAt(rules, nodes, solution, turn, k) && !MissesAt(rules, nodes, solution, turn, k)
    {
      assert Passes(rules, nodes, solution, turn, k);
    }
  }

  /**
   * Replaying the solution exactly, without reaching checkmate, passes
   * every node: the solver who plays the solution's moves is never failed.
   */
  lemma {:induction false} SolutionReplayPasses(rules: Rules, nodes: seq<TreeNode>, solution: seq<string>, turn: Color)
    requires |nodes| <= |solution|
    requires forall i | 0 <= i < |nodes| :: nodes[i].usi == solution[i] && !rules.isCheckmate(nodes[i].fen)
    ensures PassesBefore(rules, nodes, solution, turn, |nodes|)
    ensures forall k: nat :: !MissesAt(rules, nodes, solution, turn, k)
  {
    forall j | 0 <= j < |nodes|
      ensures Passes(rules, nodes, solution, turn, j)
    {
      assert nodes[j].usi == solution[j];
    }
    NoStopWhenAllPass(rules, nodes, solution, turn);
  }

  /**
   * A move that differs from the solution's only in a promotion the piece
   * could not decline still passes, so it is never the failing node.
   */
  lemma ForcedPromotionPasses(rules: Rules, nodes: seq<TreeNode>, solution: seq<string>, turn: Color, k: nat)
    requires k < |nodes| && k < |solution|
    requires IsForcedPromotion(rules, nodes[k].usi, solution[k], turn, SanRole(rules, nodes[k].san))
    ensures !MissesAt(rules, nodes, solution, turn, k)
  {
  }

  /** Playing past the end of the solution without checkmate fails. */
  lemma BeyondSolutionFails(rules: Rules, nodes: seq<TreeNode>, solution: seq<string>, turn: Color)
    requires |solution| < |nodes|
    requires PassesBefore(rules, nodes, solution, turn, |solution|)
    requires !rules.isCheckmate(nodes[|solution|].fen)
    ensures MissesAt(rules, nodes, solution, turn, |solution|)
  {
  }
}
