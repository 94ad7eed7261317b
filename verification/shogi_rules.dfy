/**
 * The slice of the shogi rules engine (shogiops) that the client modules
 * call. The engine itself is not modelled: its operations are the
 * function-valued fields of `Rules`, so every property below holds for any
 * engine. Positions are identified by their SFEN text.
 */
module ShogiRules {
  import opened Options

  datatype Color = Sente | Gote

  function Opposite(c: Color): (o: Color)
    ensures o != c
  {
    if c == Sente then Gote else Sente
  }

  datatype Role =
    | Pawn | Lance | Knight | Silver | Gold | Bishop | Rook | King
    | Tokin | PromotedSilver | PromotedKnight | PromotedLance | Horse | Dragon

  /** A board square, as the engine numbers it. */
  type Square = nat

  /** `Move`: a board move (`from`, `to`, promotion flag) or a drop from the hand. */
  datatype Move =
    | Normal(from: Square, to: Square, promotion: bool)
    | Drop(role: Role, to: Square)

  /** A position, identified by its SFEN text. */
  type Position = string

  datatype Rules = Rules(
    parseUsi: string -> Option<Move>,        // parseLishogiUsi
    makeUsi: Move -> string,                 // makeLishogiUsi
    charToRole: char -> Option<Role>,        // lishogiCharToRole
    backrank: Color -> set<Square>,          // SquareSet.backrank(color)
    backrank2: Color -> set<Square>,         // SquareSet.backrank2(color)
    isLegal: (Position, Move) -> bool,       // pos.isLegal(move)
    play: (Position, Move) -> Position,      // pos.play(move), as a new position
    isCheckmate: Position -> bool,           // parse the SFEN, then isCheckmate(); false if it does not parse
    turn: Position -> Color,                 // pos.turn
    roleAt: (Position, Square) -> Option<Role>  // pos.board.getRole(square)
  )

  /** Both texts parse to board moves (not drops) with the same origin and destination. */
  predicate SameBoardMove(rules: Rules, u1: string, u2: string) {
    var m1 := rules.parseUsi(u1);
    var m2 := rules.parseUsi(u2);
    m1.Some? && m2.Some? && m1.value.Normal? && m2.value.Normal?
    && m1.value.from == m2.value.from && m1.value.to == m2.value.to
  }

  /**
   * `isForcedPromotion`: two USI texts name the same move when they differ
   * only in a promotion that the piece cannot decline on its target square
   * (a knight on the last two ranks, a pawn or lance on the last rank).
   */
  function IsForcedPromotion(rules: Rules, u1: string, u2: string, turn: Color, role: Option<Role>): (r: bool)
    ensures r ==> SameBoardMove(rules, u1, u2)
    ensures r ==> role.Some? && role.value in {Knight, Pawn, Lance}
  {
    var m1 := rules.parseUsi(u1);
    var m2 := rules.parseUsi(u2);
    if role.None? || m1.None? || m2.None? || m1.value.Drop? || m2.value.Drop?
       || m1.value.from != m2.value.from || m1.value.to != m2.value.to
    then false
    else
      (role.value == Knight && m1.value.to in rules.backrank2(turn))
      || ((role.value == Pawn || role.value == Lance) && m1.value.to in rules.backrank(turn))
  }

  /** Every way the guard of `isForcedPromotion` can fail makes it false. */
  lemma ForcedPromotionRejects(rules: Rules, u1: string, u2: string, turn: Color, role: Option<Role>)
    ensures role.None? ==> !IsForcedPromotion(rules, u1, u2, turn, role)
    ensures rules.parseUsi(u1).None? || rules.parseUsi(u2).None? ==> !IsForcedPromotion(rules, u1, u2, turn, role)
    ensures (rules.parseUsi(u1).Some? && rules.parseUsi(u1).value.Drop?)
            || (rules.parseUsi(u2).Some? && rules.parseUsi(u2).value.Drop?)
            ==> !IsForcedPromotion(rules, u1, u2, turn, role)
    ensures !SameBoardMove(rules, u1, u2) ==> !IsForcedPromotion(rules, u1, u2, turn, role)
  {
  }

  /**
   * Once the guard passes, the verdict depends only on the role and on the
   * back-rank sets of the side to move.
   */
  lemma ForcedPromotionAccepts(rules: Rules, u1: string, u2: string, turn: Color, role: Option<Role>)
    requires role.Some? && SameBoardMove(rules, u1, u2)
    ensures var to := rules.parseUsi(u1).value.to;
      IsForcedPromotion(rules, u1, u2, turn, role) <==>
        (role.value == Knight && to in rules.backrank2(turn))
        || (role.value in {Pawn, Lance} && to in rules.backrank(turn))
  {
  }

  /** The relation does not depend on which of the two texts comes first. */
  lemma ForcedPromotionSymmetric(rules: Rules, u1: string, u2: string, turn: Color, role: Option<Role>)
    ensures IsForcedPromotion(rules, u1, u2, turn, role) == IsForcedPromotion(rules, u2, u1, turn, role)
  {
  }
}
