/**
 * The Puzzle Storm run controller (`StormCtrl`): a timed run through a
 * fixed list of puzzles. Each move is judged against the current puzzle's
 * line; right moves feed the combo and may earn bonus seconds, wrong ones
 * cost a malus, and every finished puzzle is recorded in the history from
 * which the run's statistics are computed.
 */
module Storm {
  import opened Options
  import opened Text
  import opened ShogiRules

  /** A puzzle of the run; its `line` is the solution, as USI moves. */
  datatype Puzzle = Puzzle(id: string, fen: Position, line: seq<string>, rating: int)

  /** `CurrentPuzzle`: the puzzle being solved, its index in the run, how far its line has been played, and when it started. */
  datatype CurrentPuzzle = CurrentPuzzle(index: nat, puzzle: Puzzle, moveIndex: nat, startAt: int)

  /** A history entry: the puzzle, whether it was solved, and the time spent on it. */
  datatype Round = Round(puzzle: Puzzle, win: bool, millis: int)

  /** `Combo`: the current streak of right moves and the best streak of the run. */
  datatype Combo = Combo(current: nat, best: nat) {
    /** `inc`: one more right move; the best streak follows the current one. */
    function Inc(): (c: Combo)
      ensures c.current == current + 1 && c.best >= best && c.best >= c.current
      ensures c.best == best || c.best == c.current
    {
      Combo(current + 1, if current + 1 > best then current + 1 else best)
    }

    /** `reset`: the streak is broken; the best streak is kept. */
    function Reset(): (c: Combo)
      ensures c.current == 0 && c.best == best
    {
      Combo(0, best)
    }
  }

  /** A time bonus or malus, in seconds, and when it was given. */
  datatype TimeMod = TimeMod(seconds: int, at: int)

  /** `Clock`: when the run's clock started (once, at the first move) and the seconds added or taken since. */
  datatype Clock = Clock(startAt: Option<int>, addedSeconds: int) {
    /** `start`: the first call fixes the start time, later calls change nothing. */
    function Start(now: int): (c: Clock)
      ensures c.startAt.Some? && c.addedSeconds == addedSeconds
      ensures startAt.Some? ==> c == this
      ensures startAt.None? ==> c.startAt == Some(now)
    {
      if startAt.None? then Clock(Some(now), addedSeconds) else this
    }

    function AddSeconds(seconds: int): (c: Clock)
      ensures c.startAt == startAt && c.addedSeconds - addedSeconds == seconds
    {
      Clock(startAt, addedSeconds + seconds)
    }
  }

  /** `run.modifier`: the time of the last right move and the last bonus and malus shown. */
  datatype Modifier = Modifier(moveAt: int, bonus: Option<TimeMod>, malus: Option<TimeMod>)

  /** `StormRecap`, the statistics sent at the end of the run; `time` is in milliseconds. */
  datatype Recap = Recap(puzzles: nat, score: nat, moves: nat, errors: nat, combo: nat, time: Option<int>, highest: int)

  /**
   * What the controller asks of code it does not contain: the rules
   * engine, the current puzzle's position and expected move, whether its
   * line is over, the combo bonus table, the clock's flag, and the time.
   */
  datatype Env = Env(
    rules: Rules,
    now: int,                                       // getNow()
    position: CurrentPuzzle -> Position,            // current.position()
    expectedMove: CurrentPuzzle -> Option<string>,  // current.expectedMove(), undefined past the line
    isOver: CurrentPuzzle -> bool,                  // current.isOver()
    comboBonus: Combo -> Option<TimeMod>,           // combo.bonus()
    flag: Clock -> bool                             // clock.flag()
  )

  /** The move's USI equals the puzzle's expected move. */
  predicate IsExpected(env: Env, current: CurrentPuzzle, move: Move) {
    env.expectedMove(current) == Some(env.rules.makeUsi(move))
  }

  /** The position after the move is checkmate. */
  predicate Mates(env: Env, current: CurrentPuzzle, move: Move) {
    env.rules.isCheckmate(env.rules.play(env.position(current), move))
  }

  /**
   * The board move differs from the expected one only in a promotion the
   * moving piece could not decline; the piece's role is read from the
   * position `rolePos`, and the back ranks are those of the side to move
   * after the move.
   */
  predicate ForcedPromotionOf(env: Env, current: CurrentPuzzle, move: Move, rolePos: Position) {
    var after := env.rules.play(env.position(current), move);
    var expected := env.expectedMove(current);
    move.Normal? && expected.Some?
    && IsForcedPromotion(env.rules, env.rules.makeUsi(move), expected.value, env.rules.turn(after), env.rules.roleAt(rolePos, move.from))
  }

  /**
   * A right move, as `finishMoveOrDrop` means it: a checkmate, the
   * expected move, or the expected move up to a forced promotion of the
   * piece that stood on the origin square before the move.
   */
  predicate Accepted(env: Env, current: CurrentPuzzle, move: Move) {
    Mates(env, current, move) || IsExpected(env, current, move)
    || ForcedPromotionOf(env, current, move, env.position(current))
  }

  /** The acceptance test as the controller writes it: the role is read after the move has been played. */
  predicate AcceptedAsWritten(env: Env, current: CurrentPuzzle, move: Move) {
    var after := env.rules.play(env.position(current), move);
    Mates(env, current, move) || IsExpected(env, current, move)
    || ForcedPromotionOf(env, current, move, after)
  }

  /** The three ways a move is right, and nothing else; a drop is right only by mate or by being expected. */
  lemma AcceptedCases(env: Env, current: CurrentPuzzle, move: Move)
    ensures Mates(env, current, move) ==> Accepted(env, current, move)
    ensures IsExpected(env, current, move) ==> Accepted(env, current, move)
    ensures move.Drop? ==> (Accepted(env, current, move) <==> Mates(env, current, move) || IsExpected(env, current, move))
    ensures Accepted(env, current, move) && !Mates(env, current, move) && !IsExpected(env, current, move) ==>
      var pos := env.position(current);
      var role := env.rules.roleAt(pos, move.from);
      move.Normal? && role.Some? && role.value in {Knight, Pawn, Lance}
      && SameBoardMove(env.rules, env.rules.makeUsi(move), env.expectedMove(current).value)
  {
  }

  /**
   * Once the moving piece has left its origin square, the as-written test
   * never finds a role there, and forced promotions are never accepted:
   * only mates and exact matches remain.
   */
  lemma AsWrittenIgnoresForcedPromotion(env: Env, current: CurrentPuzzle, move: Move)
    requires move.Normal? ==> env.rules.roleAt(env.rules.play(env.position(current), move), move.from).None?
    ensures AcceptedAsWritten(env, current, move) <==> Mates(env, current, move) || IsExpected(env, current, move)
  {
  }

  /** The corrected test is never stricter than the as-written one where the origin square empties. */
  lemma AsWrittenAcceptsLess(env: Env, current: CurrentPuzzle, move: Move)
    requires move.Normal? ==> env.rules.roleAt(env.rules.play(env.position(current), move), move.from).None?
    ensures AcceptedAsWritten(env, current, move) ==> Accepted(env, current, move)
  {
    AsWrittenIgnoresForcedPromotion(env, current, move);
  }

  /**
   * The rule the controller means to apply: a board move that differs from
   * the expected one only in a promotion its piece could not decline (a
   * knight on the last two ranks, a pawn or lance on the last rank) is a
   * right move.
   */
  lemma AcceptsForcedPromotion(env: Env, current: CurrentPuzzle, move: Move)
    requires move.Normal? && env.expectedMove(current).Some?
    requires SameBoardMove(env.rules, env.rules.makeUsi(move), env.expectedMove(current).value)
    requires var after := env.rules.play(env.position(current), move);
      var role := env.rules.roleAt(env.position(current), move.from);
      var to := env.rules.parseUsi(env.rules.makeUsi(move)).value.to;
      (role == Some(Knight) && to in env.rules.backrank2(env.rules.turn(after)))
      || ((role == Some(Pawn) || role == Some(Lance)) && to in env.rules.backrank(env.rules.turn(after)))
    ensures Accepted(env, current, move)
  {
  }

  /** The engine of the example below: a pawn on square 20 moves to 19, on its last rank, and must promote. */
  function ExampleRules(): Rules {
    Rules(
      u => if u == "2c2b+" then Some(Normal(20, 19, true)) else if u == "2c2b" then Some(Normal(20, 19, false)) else None,
      m => if m == Normal(20, 19, true) then "2c2b+" else "",
      c => None,
      c => {19},
      c => {},
      (p, m) => true,
      (p, m) => "after",
      p => false,
      p => Gote,
      (p, sq) => if p == "before" && sq == 20 then Some(Pawn) else None)
  }

  function ExampleEnv(): Env {
    Env(ExampleRules(), 0, c => "before", c => Some("2c2b"), c => false, c => None, c => false)
  }

  /**
   * A pawn promoting on its last rank, where the puzzle's line writes the
   * move without '+': the corrected test accepts it, the as-written test
   * calls it wrong.
   */
  lemma AsWrittenRejectsForcedPromotion()
    ensures var current := CurrentPuzzle(0, Puzzle("p", "before", [], 1500), 0, 0);
      Accepted(ExampleEnv(), current, Normal(20, 19, true))
      && !AcceptedAsWritten(ExampleEnv(), current, Normal(20, 19, true))
  {
    var env := ExampleEnv();
    var current := CurrentPuzzle(0, Puzzle("p", "before", [], 1500), 0, 0);
    var move := Normal(20, 19, true);
    assert env.rules.makeUsi(move) == "2c2b+";
    assert env.rules.parseUsi("2c2b") == Some(Normal(20, 19, false));
    assert env.rules.roleAt("before", 20) == Some(Pawn);
    assert env.rules.roleAt("after", 20) == None;
    assert "2c2b+" != "2c2b";
  }

  datatype Verdict = IllegalDrop | Right | Wrong

  /**
   * How `finishMoveOrDrop` judges a move: illegal drops are refused before
   * anything else, then the acceptance test is applied as the controller
   * writes it, with the role read after the move.
   */
  function Judge(env: Env, current: CurrentPuzzle, move: Move): Verdict {
    if move.Drop? && !env.rules.isLegal(env.position(current), move) then IllegalDrop
    else if AcceptedAsWritten(env, current, move) then Right
    else Wrong
  }

  /** The controller judges the forced promotion of the example wrong, although the corrected test accepts it. */
  lemma JudgeRejectsForcedPromotion()
    ensures var current := CurrentPuzzle(0, Puzzle("p", "before", [], 1500), 0, 0);
      Judge(ExampleEnv(), current, Normal(20, 19, true)) == Wrong
      && Accepted(ExampleEnv(), current, Normal(20, 19, true))
  {
    AsWrittenRejectsForcedPromotion();
  }

  /** `countWins`: the number of solved puzzles in the history, folded from the left. */
  function CountWins(history: seq<Round>): (n: nat)
    ensures n <= |history|
  {
    if history == [] then 0
    else
      var prefix := history[..|history| - 1];
      assert forall i | 0 <= i < |prefix| :: prefix[i] == history[i];
      CountWins(prefix) + if history[|history| - 1].win then 1 else 0
  }

  /** No win is counted exactly when no entry is a win. */
  lemma {:induction false} CountWinsZero(history: seq<Round>)
    ensures CountWins(history) == 0 <==> forall i | 0 <= i < |history| :: !history[i].win
    decreases |history|
  {
    if history != [] {
      var prefix := history[..|history| - 1];
      CountWinsZero(prefix);
      assert forall i | 0 <= i < |prefix| :: prefix[i] == history[i];
    }
  }

  lemma {:induction false} CountWinsAppend(a: seq<Round>, b: seq<Round>)
    ensures CountWins(a + b) == CountWins(a) + CountWins(b)
    decreases |b|
  {
    if b != [] {
      var b' := b[..|b| - 1];
      assert (a + b)[..|a + b| - 1] == a + b';
      CountWinsAppend(a, b');
    } else {
      assert a + b == a;
    }
  }

  /** The count does not depend on the order of the history, so `end`'s reversal keeps the score. */
  lemma {:induction false} CountWinsReverse(history: seq<Round>)
    ensures CountWins(Reverse(history)) == CountWins(history)
    decreases |history|
  {
    if history != [] {
      var n := |history| - 1;
      var prefix := history[..n];
      assert Reverse(history) == [history[n]] + Reverse(prefix);
      CountWinsAppend([history[n]], Reverse(prefix));
      CountWinsReverse(prefix);
      assert [history[n]][..0] == [];
    }
  }

  /**
   * The `highest` fold of `runStats`: the highest rating among the solved
   * puzzles, or 0 when none is rated above 0.
   */
  function Highest(history: seq<Round>): (h: int)
    ensures h >= 0
    ensures forall i | 0 <= i < |history| && history[i].win :: history[i].puzzle.rating <= h
    ensures h == 0 || exists i | 0 <= i < |history| :: history[i].win && history[i].puzzle.rating == h
  {
    if history == [] then 0
    else
      var prefix := history[..|history| - 1];
      assert forall i | 0 <= i < |prefix| :: prefix[i] == history[i];
      var h := Highest(prefix);
      var r := history[|history| - 1];
      if r.win && r.puzzle.rating > h then r.puzzle.rating else h
  }

  /** Histories holding the same entries, in any order, have the same highest rating. */
  lemma HighestSameEntries(a: seq<Round>, b: seq<Round>)
    requires forall x :: x in a <==> x in b
    ensures Highest(a) == Highest(b)
  {
    var ha, hb := Highest(a), Highest(b);
    if ha != 0 {
      var i :| 0 <= i < |a| && a[i].win && a[i].puzzle.rating == ha;
      assert a[i] in b;
    }
    if hb != 0 {
      var j :| 0 <= j < |b| && b[j].win && b[j].puzzle.rating == hb;
      assert b[j] in a;
    }
  }

  lemma HighestReverse(history: seq<Round>)
    ensures Highest(Reverse(history)) == Highest(history)
  {
    var r := Reverse(history);
    forall x
      ensures x in r <==> x in history
    {
      if x in history {
        var i :| 0 <= i < |history| && history[i] == x;
        assert r[|history| - 1 - i] == x;
      }
      if x in r {
        var i :| 0 <= i < |r| && r[i] == x;
        assert history[|history| - 1 - i] == x;
      }
    }
    HighestSameEntries(r, history);
  }

  /** The history after `pushToHistory(win)`: the first entry is free, later ones count the time since the puzzle started. */
  function Pushed(history: seq<Round>, current: CurrentPuzzle, win: bool, now: int): (h: seq<Round>)
    ensures |h| == |history| + 1 && h[..|history|] == history
    ensures h[|history|].puzzle == current.puzzle && h[|history|].win == win
    ensures h[0].millis == if history == [] then 0 else history[0].millis
  {
    var h := history + [Round(current.puzzle, win, if |history| > 0 then now - current.startAt else 0)];
    assert h[..|history|] == history;
    h
  }

  /** A pushed entry adds one to the wins exactly when it is a win. */
  lemma PushedCounts(history: seq<Round>, current: CurrentPuzzle, win: bool, now: int)
    ensures CountWins(Pushed(history, current, win, now)) == CountWins(history) + if win then 1 else 0
  {
    var h := Pushed(history, current, win, now);
    assert h[..|h| - 1] == history;
  }

  class StormCtrl {
    const puzzles: seq<Puzzle>   // data.puzzles
    const malus: int             // config.clock.malus
    var moves: nat
    var errors: nat
    var current: CurrentPuzzle
    var clock: Clock
    var history: seq<Round>
    var combo: Combo
    var modifier: Modifier
    var endAt: Option<int>
    var filterSlow: bool
    var filterFailed: bool

    /**
     * The run's invariant: the current puzzle is the run's puzzle at its
     * index; the best combo is at least the current one; and each move
     * counted is at most one solved puzzle or one error. Until the run ends
     * the first history entry took no time.
     */
    predicate Valid()
      reads this
    {
      |puzzles| > 0 && current.index < |puzzles| && current.puzzle == puzzles[current.index]
      && combo.current <= combo.best
      && CountWins(history) + errors <= moves
      && (endAt.None? && history != [] ==> history[0].millis == 0)
    }

    /** A new run starts at the first puzzle with nothing counted. */
    constructor(puzzles: seq<Puzzle>, malus: int, now: int)
      requires |puzzles| > 0
      ensures Valid()
      ensures this.puzzles == puzzles && this.malus == malus
      ensures moves == 0 && errors == 0 && current == CurrentPuzzle(0, puzzles[0], 0, now)
      ensures clock == Clock(None, 0) && history == [] && combo == Combo(0, 0)
      ensures modifier == Modifier(0, None, None) && endAt == None
      ensures !filterSlow && !filterFailed
    {
      this.puzzles := puzzles;
      this.malus := malus;
      moves := 0;
      errors := 0;
      current := CurrentPuzzle(0, puzzles[0], 0, now);
      clock := Clock(None, 0);
      history := [];
      combo := Combo(0, 0);
      modifier := Modifier(0, None, None);
      endAt := None;
      filterSlow := false;
      filterFailed := false;
    }

    /** `pushToHistory`: one entry for the current puzzle; nothing else changes. */
    method PushToHistory(win: bool, now: int)
      modifies this
      ensures history == Pushed(old(history), current, win, now)
      ensures CountWins(history) == CountWins(old(history)) + (if win then 1 else 0)
      ensures moves == old(moves) && errors == old(errors) && current == old(current) && clock == old(clock)
      ensures combo == old(combo) && modifier == old(modifier) && endAt == old(endAt)
      ensures filterSlow == old(filterSlow) && filterFailed == old(filterFailed)
    {
      PushedCounts(history, current, win, now);
      history := history + [Round(current.puzzle, win, if |history| > 0 then now - current.startAt else 0)];
    }

    /**
     * `incPuzzle`: moves on to the next puzzle of the run when there is
     * one, and says whether it did.
     */
    method IncPuzzle(now: int) returns (advanced: bool)
      requires Valid()
      modifies this
      ensures Valid()
      ensures advanced <==> old(current.index) < |puzzles| - 1
      ensures advanced ==> current == CurrentPuzzle(old(current.index) + 1, puzzles[old(current.index) + 1], 0, now)
      ensures !advanced ==> current == old(current)
      ensures moves == old(moves) && errors == old(errors) && clock == old(clock) && history == old(history)
      ensures combo == old(combo) && modifier == old(modifier) && endAt == old(endAt)
      ensures filterSlow == old(filterSlow) && filterFailed == old(filterFailed)
    {
      var index := current.index;
      if index < |puzzles| - 1 {
        current := CurrentPuzzle(index + 1, puzzles[index + 1], 0, now);
        return true;
      }
      return false;
    }

    /** `end`: the history is reversed in place and the end time recorded; the score is kept. */
    method End(now: int)
      requires Valid()
      modifies this
      ensures Valid()
      ensures history == Reverse(old(history)) && endAt == Some(now)
      ensures CountWins(history) == CountWins(old(history))
      ensures moves == old(moves) && errors == old(errors) && current == old(current) && clock == old(clock)
      ensures combo == old(combo) && modifier == old(modifier)
      ensures filterSlow == old(filterSlow) && filterFailed == old(filterFailed)
    {
      CountWinsReverse(history);
      history := Reverse(history);
      endAt := Some(now);
    }

    /** `endNow`: the current puzzle is recorded as unsolved, then the run ends. */
    method EndNow(now: int)
      requires Valid()
      modifies this
      ensures Valid()
      ensures history == Reverse(Pushed(old(history), old(current), false, now)) && endAt == Some(now)
      ensures moves == old(moves) && errors == old(errors) && current == old(current) && clock == old(clock)
      ensures combo == old(combo) && modifier == old(modifier)
      ensures filterSlow == old(filterSlow) && filterFailed == old(filterFailed)
    {
      PushToHistory(false, now);
      End(now);
    }

    /**
     * `finishMoveOrDrop`. Every call starts the clock and counts a move.
     * An illegal drop changes nothing else. A right move advances the
     * puzzle's line by one, extends the combo and takes any combo bonus;
     * then either the puzzle is over (recorded as solved, and the run goes
     * on with the next puzzle or ends) or the opponent's reply is played
     * too. A wrong move records the puzzle as unsolved, counts an error,
     * breaks the combo and costs the malus; the run ends when the clock
     * flags or no puzzle is left, and goes on with the next one otherwise.
     */
    method FinishMoveOrDrop(env: Env, move: Move)
      requires Valid()
      modifies this
      ensures Valid()
      ensures moves == old(moves) + 1
      ensures filterSlow == old(filterSlow) && filterFailed == old(filterFailed)
      ensures Judge(env, old(current), move) == IllegalDrop ==>
        && errors == old(errors) && combo == old(combo) && history == old(history) && current == old(current)
        && modifier == old(modifier) && endAt == old(endAt) && clock == old(clock).Start(env.now)
      ensures Judge(env, old(current), move) == Right ==>
        var inc := old(combo).Inc();
        var bonus := env.comboBonus(inc);
        var started := old(clock).Start(env.now);
        var advanced := old(current).(moveIndex := old(current).moveIndex + 1);
        var pushed := Pushed(old(history), advanced, true, env.now);
        && errors == old(errors) && combo == inc
        && modifier == old(modifier).(moveAt := env.now, bonus := if bonus.Some? then bonus else old(modifier).bonus)
        && clock == (if bonus.Some? then started.AddSeconds(bonus.value.seconds) else started)
        && if !env.isOver(advanced) then
             current == advanced.(moveIndex := advanced.moveIndex + 1) && history == old(history) && endAt == old(endAt)
           else if old(current.index) < |puzzles| - 1 then
             current == CurrentPuzzle(old(current.index) + 1, puzzles[old(current.index) + 1], 0, env.now)
             && history == pushed && endAt == old(endAt)
           else
             current == advanced && history == Reverse(pushed) && endAt == Some(env.now)
      ensures Judge(env, old(current), move) == Wrong ==>
        var charged := old(clock).Start(env.now).AddSeconds(-malus);
        var pushed := Pushed(old(history), old(current), false, env.now);
        && errors == old(errors) + 1 && combo == old(combo).Reset() && clock == charged
        && modifier == old(modifier).(malus := Some(TimeMod(malus, env.now)))
        && if env.flag(charged) || old(current.index) >= |puzzles| - 1 then
             current == old(current) && history == Reverse(pushed) && endAt == Some(env.now)
           else
             current == CurrentPuzzle(old(current.index) + 1, puzzles[old(current.index) + 1], 0, env.now)
             && history == pushed && endAt == old(endAt)
    {
      clock := clock.Start(env.now);
      moves := moves + 1;
      var puzzle := current;
      var pos := env.position(puzzle);
      var usi := env.rules.makeUsi(move);
      if move.Drop? && !env.rules.isLegal(pos, move) {
        return;
      }
      var after := env.rules.play(pos, move);
      var expected := env.expectedMove(puzzle);
      if env.rules.isCheckmate(after) || expected == Some(usi)
         || (move.Normal? && expected.Some?
             && IsForcedPromotion(env.rules, usi, expected.value, env.rules.turn(after), env.rules.roleAt(after, move.from)))
      {
        assert Judge(env, puzzle, move) == Right;
        RightMove(env);
      } else {
        assert Judge(env, puzzle, move) == Wrong;
        WrongMove(env);
      }
    }

    /** The right-move branch of `finishMoveOrDrop`, once the clock is started and the move counted. */
    method RightMove(env: Env)
      requires Valid() && CountWins(history) + errors < moves
      modifies this
      ensures Valid()
      ensures moves == old(moves) && errors == old(errors) && combo == old(combo).Inc()
      ensures var bonus := env.comboBonus(old(combo).Inc());
        && modifier == old(modifier).(moveAt := env.now, bonus := if bonus.Some? then bonus else old(modifier).bonus)
        && clock == if bonus.Some? then old(clock).AddSeconds(bonus.value.seconds) else old(clock)
      ensures var advanced := old(current).(moveIndex := old(current).moveIndex + 1);
        if !env.isOver(advanced) then
          current == advanced.(moveIndex := advanced.moveIndex + 1) && history == old(history) && endAt == old(endAt)
        else if old(current.index) < |puzzles| - 1 then
          current == CurrentPuzzle(old(current.index) + 1, puzzles[old(current.index) + 1], 0, env.now)
          && history == Pushed(old(history), advanced, true, env.now) && endAt == old(endAt)
        else
          current == advanced && history == Reverse(Pushed(old(history), advanced, true, env.now)) && endAt == Some(env.now)
      ensures filterSlow == old(filterSlow) && filterFailed == old(filterFailed)
    {
      current := current.(moveIndex := current.moveIndex + 1);
      combo := combo.Inc();
      modifier := modifier.(moveAt := env.now);
      var bonus := env.comboBonus(combo);
      if bonus.Some? {
        modifier := modifier.(bonus := bonus);
        clock := clock.AddSeconds(bonus.value.seconds);
      }
      PlayOnOrFinish(env);
    }

    /** After a right move: the puzzle is solved when its line is over, otherwise the opponent's reply is played. */
    method PlayOnOrFinish(env: Env)
      requires Valid() && CountWins(history) + errors < moves
      modifies this
      ensures Valid()
      ensures if !env.isOver(old(current)) then
          current == old(current).(moveIndex := old(current).moveIndex + 1) && history == old(history) && endAt == old(endAt)
        else if old(current.index) < |puzzles| - 1 then
          current == CurrentPuzzle(old(current.index) + 1, puzzles[old(current.index) + 1], 0, env.now)
          && history == Pushed(old(history), old(current), true, env.now) && endAt == old(endAt)
        else
          current == old(current) && history == Reverse(Pushed(old(history), old(current), true, env.now)) && endAt == Some(env.now)
      ensures moves == old(moves) && errors == old(errors) && clock == old(clock)
      ensures combo == old(combo) && modifier == old(modifier)
      ensures filterSlow == old(filterSlow) && filterFailed == old(filterFailed)
    {
      if env.isOver(current) {
        PushToHistory(true, env.now);
        NextOrEnd(env.now);
      } else {
        current := current.(moveIndex := current.moveIndex + 1);
      }
    }

    /** The wrong-move branch of `finishMoveOrDrop`, once the clock is started and the move counted. */
    method WrongMove(env: Env)
      requires Valid() && CountWins(history) + errors < moves
      modifies this
      ensures Valid()
      ensures moves == old(moves) && errors == old(errors) + 1 && combo == old(combo).Reset()
      ensures clock == old(clock).AddSeconds(-malus)
      ensures modifier == old(modifier).(malus := Some(TimeMod(malus, env.now)))
      ensures env.flag(clock) || old(current.index) >= |puzzles| - 1 ==>
        current == old(current) && history == Reverse(Pushed(old(history), old(current), false, env.now))
        && endAt == Some(env.now)
      ensures !env.flag(clock) && old(current.index) < |puzzles| - 1 ==>
        current == CurrentPuzzle(old(current.index) + 1, puzzles[old(current.index) + 1], 0, env.now)
        && history == Pushed(old(history), old(current), false, env.now) && endAt == old(endAt)
      ensures filterSlow == old(filterSlow) && filterFailed == old(filterFailed)
    {
      PushToHistory(false, env.now);
      errors := errors + 1;
      combo := combo.Reset();
      clock := clock.AddSeconds(-malus);
      modifier := modifier.(malus := Some(TimeMod(malus, env.now)));
      if env.flag(clock) {
        End(env.now);
      } else {
        NextOrEnd(env.now);
      }
    }

    /** `if (!this.incPuzzle()) this.end()`: the next puzzle of the run, or the end of the run when there is none. */
    method NextOrEnd(now: int)
      requires Valid()
      modifies this
      ensures Valid()
      ensures if old(current.index) < |puzzles| - 1 then
          current == CurrentPuzzle(old(current.index) + 1, puzzles[old(current.index) + 1], 0, now)
          && history == old(history) && endAt == old(endAt)
        else
          current == old(current) && history == Reverse(old(history)) && endAt == Some(now)
      ensures moves == old(moves) && errors == old(errors) && clock == old(clock)
      ensures combo == old(combo) && modifier == old(modifier)
      ensures filterSlow == old(filterSlow) && filterFailed == old(filterFailed)
    {
      var advanced := IncPuzzle(now);
      if !advanced {
        End(now);
      }
    }

    /** `runStats`: the statistics of the run, as recorded at its end. */
    function RunStats(): (r: Recap)
      reads this
      ensures r.puzzles == |history| && r.score <= r.puzzles
      ensures r.score == 0 <==> forall i | 0 <= i < |history| :: !history[i].win
      ensures r.moves == moves && r.errors == errors && r.combo == combo.best
      ensures r.time.Some? <==> endAt.Some? && clock.startAt.Some?
      ensures r.time.Some? ==> r.time.value == endAt.value - clock.startAt.value
      ensures r.highest >= 0 && forall i | 0 <= i < |history| && history[i].win :: history[i].puzzle.rating <= r.highest
      ensures r.highest == 0 || exists i | 0 <= i < |history| :: history[i].win && history[i].puzzle.rating == r.highest
    {
      CountWinsZero(history);
      Recap(|history|, CountWins(history), moves, errors, combo.best,
        if endAt.Some? && clock.startAt.Some? then Some(endAt.value - clock.startAt.value) else None,
        Highest(history))
    }

    /** `toggleFilterSlow`: flips the slow-puzzle filter of the recap and nothing else. */
    method ToggleFilterSlow()
      modifies this
      ensures filterSlow == !old(filterSlow) && filterFailed == old(filterFailed)
      ensures moves == old(moves) && errors == old(errors) && current == old(current) && clock == old(clock)
      ensures history == old(history) && combo == old(combo) && modifier == old(modifier) && endAt == old(endAt)
    {
      filterSlow := !filterSlow;
    }

    /** `toggleFilterFailed`: flips the failed-puzzle filter of the recap and nothing else. */
    method ToggleFilterFailed()
      modifies this
      ensures filterFailed == !old(filterFailed) && filterSlow == old(filterSlow)
      ensures moves == old(moves) && errors == old(errors) && current == old(current) && clock == old(clock)
      ensures history == old(history) && combo == old(combo) && modifier == old(modifier) && endAt == old(endAt)
    {
      filterFailed := !filterFailed;
    }
  }
}
