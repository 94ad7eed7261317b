/**
 * The keyboard move input of the round page: conversion between numeric
 * squares ("97") and board keys ("a3"), lookups in the table of legal moves
 * by notation, and the classification of typed text into board commands.
 */
module KeyboardMove {
  import opened Options
  import opened Text

  predicate IsDigit19(c: char) { '1' <= c <= '9' }

  predicate IsFileChar(c: char) { 'a' <= c <= 'i' }

  /** Text that starts with a numeric square: file digit then rank digit, both 1-9. */
  predicate StartsWithDigitKey(s: string) {
    |s| >= 2 && IsDigit19(s[0]) && IsDigit19(s[1])
  }

  /** `keyRegex` (/^[1-9][1-9]$/): exactly a numeric square. */
  predicate IsDigitKey(s: string) {
    |s| == 2 && StartsWithDigitKey(s)
  }

  /** A board key: a file letter a-i then a rank digit 1-9. */
  predicate IsBoardKey(s: string) {
    |s| == 2 && IsFileChar(s[0]) && IsDigit19(s[1])
  }

  /**
   * `alpha`: numeric square to board key, "97" -> "a3". Only the first two
   * characters are read, so a uci slice such as "76+" converts like "76".
   */
  function Alpha(coord: string): (key: string)
    requires StartsWithDigitKey(coord)
    ensures IsBoardKey(key)
  {
    [((8 - (coord[0] as int - 49)) + 97) as char, ((8 - (coord[1] as int - 49)) + 49) as char]
  }

  /** `coordinate`: board key to numeric square, "a3" -> "97". */
  function Coordinate(square: string): (coord: string)
    requires IsBoardKey(square)
    ensures IsDigitKey(coord)
  {
    [((8 - (square[0] as int - 97)) + 49) as char, ((8 - (square[1] as int - 49)) + 49) as char]
  }

  /** `coordinate` undoes `alpha` on every numeric square. */
  lemma CoordinateOfAlpha(coord: string)
    requires IsDigitKey(coord)
    ensures Coordinate(Alpha(coord)) == coord
  {
    assert Coordinate(Alpha(coord))[0] == coord[0];
  }

  /** `alpha` undoes `coordinate` on every board key. */
  lemma AlphaOfCoordinate(square: string)
    requires IsBoardKey(square)
    ensures Alpha(Coordinate(square)) == square
  {
    assert Alpha(Coordinate(square))[0] == square[0];
  }

  /** The example of the source's comments: "97" is "a3". */
  lemma AlphaExample()
    ensures Alpha("97") == "a3" && Coordinate("a3") == "97"
  {
  }

  /**
   * The table from move notation (san) to uci that the move writer builds:
   * the keys of a JavaScript object, in their iteration order.
   */
  type Sans = seq<(string, string)>

  /** Every uci of the table starts with two numeric squares, as the move writer produces them. */
  predicate ValidSans(sans: Sans) {
    forall i | 0 <= i < |sans| :: |sans[i].1| >= 4 && StartsWithDigitKey(sans[i].1) && StartsWithDigitKey(sans[i].1[2..])
  }

  /** The first entry whose key is exactly `san` (`san in sans`). */
  function ExactIndex(san: string, sans: Sans): (r: Option<nat>)
    ensures r.Some? ==> r.value < |sans| && sans[r.value].0 == san
    ensures r.Some? ==> forall j | 0 <= j < r.value :: sans[j].0 != san
    ensures r.None? ==> forall j | 0 <= j < |sans| :: sans[j].0 != san
  {
    if sans == [] then None
    else if sans[0].0 == san then Some(0)
    else match ExactIndex(san, sans[1..])
      case None => None
      case Some(i) => Some(i + 1)
  }

  /** The first entry whose key equals `san` ignoring case (the `for ... in` scan). */
  function LooseIndex(san: string, sans: Sans): (r: Option<nat>)
    ensures r.Some? ==> r.value < |sans| && Lower(sans[r.value].0) == Lower(san)
    ensures r.Some? ==> forall j | 0 <= j < r.value :: Lower(sans[j].0) != Lower(san)
    ensures r.None? ==> forall j | 0 <= j < |sans| :: Lower(sans[j].0) != Lower(san)
  {
    if sans == [] then None
    else if Lower(sans[0].0) == Lower(san) then Some(0)
    else match LooseIndex(san, sans[1..])
      case None => None
      case Some(i) => Some(i + 1)
  }

  /**
   * `sanToUci`: the uci of the entry whose key is exactly `san`; failing
   * that, of the first entry whose key matches ignoring case; else nothing.
   */
  function SanToUci(san: string, sans: Sans): (r: Option<string>)
    ensures (exists i | 0 <= i < |sans| :: sans[i].0 == san) ==>
      exists i | 0 <= i < |sans| :: sans[i].0 == san && r == Some(sans[i].1)
    ensures (forall i | 0 <= i < |sans| :: sans[i].0 != san) ==>
      (r.Some? <==> exists i | 0 <= i < |sans| :: Lower(sans[i].0) == Lower(san))
    ensures r.Some? ==> exists i | 0 <= i < |sans| :: Lower(sans[i].0) == Lower(san) && r.value == sans[i].1
  {
    match ExactIndex(san, sans)
    case Some(i) => Some(sans[i].1)
    case None =>
      match LooseIndex(san, sans)
      case Some(i) => Some(sans[i].1)
      case None => None
  }

  /** Without an exact key, the uci found is that of the first key equal to the text ignoring case. */
  lemma SanToUciFirstLoose(san: string, sans: Sans)
    requires forall i | 0 <= i < |sans| :: sans[i].0 != san
    requires SanToUci(san, sans).Some?
    ensures exists i | 0 <= i < |sans| ::
      Lower(sans[i].0) == Lower(san) && SanToUci(san, sans).value == sans[i].1
      && forall j | 0 <= j < i :: Lower(sans[j].0) != Lower(san)
  {
    var i := LooseIndex(san, sans).value;
    assert Lower(sans[i].0) == Lower(san);
  }

  /** `sanCandidates`: the keys, in order, whose lower-case form starts with the lower-cased input. */
  function SanCandidates(san: string, sans: Sans): (r: seq<string>)
    ensures |r| <= |sans|
    ensures forall s :: s in r <==> exists i | 0 <= i < |sans| :: sans[i].0 == s && Lower(san) <= Lower(s)
  {
    if sans == [] then []
    else
      var rest := SanCandidates(san, sans[1..]);
      assert forall i | 1 <= i < |sans| :: sans[i] == sans[1..][i - 1];
      if Lower(san) <= Lower(sans[0].0) then [sans[0].0] + rest else rest
  }

  /** Whenever `sanToUci` finds a move, the candidate list offered for the same input is not empty. */
  lemma {:induction false} FoundHasCandidates(san: string, sans: Sans)
    requires SanToUci(san, sans).Some?
    ensures |SanCandidates(san, sans)| > 0
  {
    var i :| 0 <= i < |sans| && Lower(sans[i].0) == Lower(san);
    assert Lower(san) <= Lower(sans[i].0);
    assert sans[i].0 in SanCandidates(san, sans);
  }

  /** The legal destinations by origin, in the iteration order of the source's `Map`. */
  type Dests = seq<(string, seq<string>)>

  predicate ValidDests(dests: Dests) {
    forall i | 0 <= i < |dests| :: IsBoardKey(dests[i].0) && forall j | 0 <= j < |dests[i].1| :: IsBoardKey(dests[i].1[j])
  }

  /** The ucis of one origin, in destination order. */
  function RowUcis(orig: string, targets: seq<string>): (r: seq<string>)
    requires IsBoardKey(orig) && forall j | 0 <= j < |targets| :: IsBoardKey(targets[j])
  {
    if targets == [] then []
    else RowUcis(orig, targets[..|targets| - 1]) + [Coordinate(orig) + Coordinate(targets[|targets| - 1])]
  }

  /** The flattening that `destsToUcis` performs. */
  function UcisOf(dests: Dests): (r: seq<string>)
    requires ValidDests(dests)
  {
    if dests == [] then []
    else UcisOf(dests[..|dests| - 1]) + RowUcis(dests[|dests| - 1].0, dests[|dests| - 1].1)
  }

  function TotalDests(dests: Dests): nat {
    if dests == [] then 0 else TotalDests(dests[..|dests| - 1]) + |dests[|dests| - 1].1|
  }

  lemma {:induction false} RowUcisFacts(orig: string, targets: seq<string>)
    requires IsBoardKey(orig) && forall j | 0 <= j < |targets| :: IsBoardKey(targets[j])
    ensures |RowUcis(orig, targets)| == |targets|
    ensures forall u | u in RowUcis(orig, targets) ::
      |u| == 4 && IsDigitKey(u[..2]) && IsDigitKey(u[2..]) && Alpha(u[..2]) == orig && Alpha(u[2..]) in targets
  {
    if targets != [] {
      var last := targets[|targets| - 1];
      RowUcisFacts(orig, targets[..|targets| - 1]);
      var u := Coordinate(orig) + Coordinate(last);
      assert u[..2] == Coordinate(orig) && u[2..] == Coordinate(last);
      AlphaOfCoordinate(orig);
      AlphaOfCoordinate(last);
    }
  }

  /**
   * What `destsToUcis` produces: one uci per destination, each made of two
   * numeric squares that `alpha` turns back into an origin of the map and
   * one of that origin's destinations.
   */
  lemma {:induction false} UcisOfFacts(dests: Dests)
    requires ValidDests(dests)
    ensures |UcisOf(dests)| == TotalDests(dests)
    ensures forall u | u in UcisOf(dests) ::
      |u| == 4 && IsDigitKey(u[..2]) && IsDigitKey(u[2..])
      && exists i | 0 <= i < |dests| :: Alpha(u[..2]) == dests[i].0 && Alpha(u[2..]) in dests[i].1
  {
    if dests != [] {
      var n := |dests| - 1;
      UcisOfFacts(dests[..n]);
      RowUcisFacts(dests[n].0, dests[n].1);
      forall u | u in UcisOf(dests)
        ensures |u| == 4 && IsDigitKey(u[..2]) && IsDigitKey(u[2..])
          && exists i | 0 <= i < |dests| :: Alpha(u[..2]) == dests[i].0 && Alpha(u[2..]) in dests[i].1
      {
        if u in UcisOf(dests[..n]) {
          var i :| 0 <= i < n && Alpha(u[..2]) == dests[..n][i].0 && Alpha(u[2..]) in dests[..n][i].1;
          assert dests[..n][i] == dests[i];
        } else {
          assert u in RowUcis(dests[n].0, dests[n].1);
        }
      }
    }
  }

  /** `destsToUcis`: the nested loop that pushes `coordinate(orig) + coordinate(dest)` for every destination. */
  method DestsToUcis(dests: Dests) returns (ucis: seq<string>)
    requires ValidDests(dests)
    ensures ucis == UcisOf(dests)
  {
    ucis := [];
    for i := 0 to |dests|
      invariant ucis == UcisOf(dests[..i])
    {
      var (orig, d) := dests[i];
      for j := 0 to |d|
        invariant ucis == UcisOf(dests[..i]) + RowUcis(orig, d[..j])
      {
        ucis := ucis + [Coordinate(orig) + Coordinate(d[j])];
        assert d[..j + 1][..j] == d[..j];
      }
      assert d[..|d|] == d;
      assert dests[..i + 1][..i] == dests[..i];
    }
    assert dests[..|dests|] == dests;
  }

  /** `simplePlural`: the count, a space, and the word, with an 's' unless the count is one. */
  function SimplePlural(nb: nat, word: string): (r: string)
    ensures nb == 1 <==> r == "1 " + word
    ensures nb != 1 <==> r == DecimalString(nb) + " " + word + "s"
  {
    DecimalStringOne(nb);
    DecimalString(nb) + " " + word + (if nb != 1 then "s" else "")
  }

  /** `fileRegex` (/^[1-9]$/) */
  predicate IsFileDigit(v: string) {
    |v| == 1 && IsDigit19(v[0])
  }

  /** A character of the regular-expression class `\w`. */
  predicate IsWordChar(c: char) {
    'a' <= c <= 'z' || 'A' <= c <= 'Z' || '0' <= c <= '9' || c == '_'
  }

  /** `dropRegex` (/^\w?\*[1-9][1-9]$/): "*76", or a piece character then "*76". */
  predicate IsDropText(v: string) {
    (|v| == 3 && v[0] == '*' && IsDigitKey(v[1..]))
    || (|v| == 4 && IsWordChar(v[0]) && v[1] == '*' && IsDigitKey(v[2..]))
  }

  /**
   * The optional group of `ambiguousPromotionRegex`, `(\\w?x?)?`. Its `\\`
   * is an escaped backslash, so the group is empty or a literal backslash
   * followed by an optional 'w' and an optional 'x'.
   */
  predicate IsAmbiguousPrefix(p: string) {
    p == "" || p == "\\" || p == "\\w" || p == "\\x" || p == "\\wx"
  }

  /** `ambiguousPromotionRegex`: that group, a numeric square, then '+' or '='. */
  predicate IsAmbiguousPromotion(v: string) {
    |v| >= 3 && IsDigitKey(v[|v| - 3..|v| - 1]) && v[|v| - 1] in "+=" && IsAmbiguousPrefix(v[..|v| - 3])
  }

  /** `promotionRegex` (/^[1-9][1-9]x?[1-9][1-9][\+\=]$/) */
  predicate IsPromotionText(v: string) {
    (|v| == 5 && IsDigitKey(v[..2]) && IsDigitKey(v[2..4]) && v[4] in "+=")
    || (|v| == 6 && IsDigitKey(v[..2]) && v[2] == 'x' && IsDigitKey(v[3..5]) && v[5] in "+=")
  }

  /** What `submit` asks of the round controller and of the browser. */
  datatype Command =
    | Select(key: string)                             // ctrl.select
    | PlaySan(orig: string, dest: string)             // ctrl.san
    | Promote(orig: string, dest: string, piece: char) // ctrl.promote
    | DropPiece(key: string, role: char)              // ctrl.drop
    | ReadClocks                                      // read both clocks aloud
    | ErrorSound                                      // sound.error

  /** What happens to the text box. */
  datatype InputUpdate =
    | Unchanged            // value and classes left as they are
    | Cleared              // clear(): empty value, 'wrong' class removed
    | ValueCleared         // empty value only
    | WrongMarked(wrong: bool)  // classList.toggle('wrong', wrong)

  datatype Reaction = Reaction(commands: seq<Command>, input: InputUpdate)

  datatype SubmitOpts = SubmitOpts(force: bool, yourMove: bool)

  /** A lookup result as JavaScript tests it: found, and not the empty string. */
  predicate Truthy(found: Option<string>) {
    found.Some? && found.value != ""
  }

  /** The reaction of the promotion branch to its own `sanToUci` lookup. */
  function PromoteReaction(found: Option<string>, v: string): (r: Reaction)
    requires |v| > 0
    requires found.Some? && found.value != "" ==> |found.value| >= 4 && StartsWithDigitKey(found.value) && StartsWithDigitKey(found.value[2..])
    ensures Truthy(found) <==> r.commands != []
  {
    if !Truthy(found) then Reaction([], Unchanged)
    else Reaction([Promote(Alpha(found.value[..2]), Alpha(found.value[2..4]), v[|v| - 1])], Cleared)
  }

  /**
   * `submit`: the cascade that classifies the typed text `v`. `sans` is the
   * closure's table (absent when there is no move to make), `hasSelected`
   * is `ctrl.hasSelected()` and `markedWrong` whether the box already has
   * the 'wrong' class.
   */
  function Submit(v: string, opts: SubmitOpts, sans: Option<Sans>, hasSelected: bool, markedWrong: bool): (r: Reaction)
    requires sans.Some? ==> ValidSans(sans.value)
    ensures r.input.Cleared? ==> r.commands != []
  {
    var found := if |v| >= 2 && sans.Some? then SanToUci(v, sans.value) else None;
    if Truthy(found) then
      var select := if IsDigitKey(v) && hasSelected then [Select(Alpha(v))] else [];
      if IsAmbiguousPromotion(v) && !opts.force then Reaction(select, Unchanged)
      else Reaction(select + [PlaySan(Alpha(found.value[..2]), Alpha(found.value[2..]))], Cleared)
    else if sans.Some? && IsDigitKey(v) then Reaction([Select(Alpha(v))], Cleared)
    else if sans.Some? && IsFileDigit(v) then Reaction([], Unchanged)
    else if |v| >= 5 && sans.Some? && IsPromotionText(v) then PromoteReaction(SanToUci(v, sans.value), v)
    else if IsDropText(v) then
      var w := if |v| == 3 then "P" + v else v;
      Reaction([DropPiece(Alpha(w[2..]), UpperChar(w[0]))], Cleared)
    else if |v| > 0 && Lower(v) <= "clock" then
      if Lower(v) == "clock" then Reaction([ReadClocks], Cleared) else Reaction([], Unchanged)
    else if opts.yourMove && |v| > 1 then Reaction([ErrorSound], ValueCleared)
    else
      var wrong := |v| > 0 && sans.Some? && |SanCandidates(v, sans.value)| == 0;
      Reaction(if wrong && !markedWrong then [ErrorSound] else [], WrongMarked(wrong))
  }

  /** `v` is not found in the table (or there is no table), so the first branch of `submit` is skipped. */
  predicate NotFound(v: string, sans: Option<Sans>) {
    sans.None? || !Truthy(SanToUci(v, sans.value))
  }

  /** A three-character drop such as "*76" drops a pawn ('P') on `alpha` of its two digits. */
  lemma SubmitPawnDrop(v: string, opts: SubmitOpts, sans: Option<Sans>, hasSelected: bool, markedWrong: bool)
    requires sans.Some? ==> ValidSans(sans.value)
    requires |v| == 3 && v[0] == '*' && IsDigitKey(v[1..])
    requires NotFound(v, sans)
    ensures Submit(v, opts, sans, hasSelected, markedWrong) == Reaction([DropPiece(Alpha(v[1..]), 'P')], Cleared)
  {
    assert ("P" + v)[2..] == v[1..];
  }

  /** Without `force`, text matching `ambiguousPromotionRegex` never plays a move. */
  lemma {:induction false} AmbiguousPromotionNeedsForce(v: string, opts: SubmitOpts, sans: Option<Sans>, hasSelected: bool, markedWrong: bool)
    requires sans.Some? ==> ValidSans(sans.value)
    requires IsAmbiguousPromotion(v) && !opts.force
    ensures forall c | c in Submit(v, opts, sans, hasSelected, markedWrong).commands :: !c.PlaySan? && !c.DropPiece?
  {
    var found := if |v| >= 2 && sans.Some? then SanToUci(v, sans.value) else None;
    var r := Submit(v, opts, sans, hasSelected, markedWrong);
    if Truthy(found) {
      assert forall c | c in r.commands :: c.Select?;
    } else {
      assert !IsDropText(v) by {
        if |v| == 3 { assert v[0] != '*'; }
        if |v| == 4 { assert v[1] != '*' by { assert IsAmbiguousPrefix(v[..1]); } }
      }
      assert |v| >= 3 && !IsDigitKey(v) && !IsFileDigit(v);
      if |v| >= 5 && sans.Some? && IsPromotionText(v) {
        assert r == PromoteReaction(SanToUci(v, sans.value), v);
      } else {
        assert forall c | c in r.commands :: c == ReadClocks || c == ErrorSound;
      }
    }
  }

  /** The quirk of `ambiguousPromotionRegex`: `\\w` stands for a backslash, not for a piece letter. */
  lemma AmbiguousPromotionQuirk()
    ensures IsAmbiguousPromotion("76+") && IsAmbiguousPromotion("\\w76=") && IsAmbiguousPromotion("\\x76+")
    ensures !IsAmbiguousPromotion("N76+") && !IsAmbiguousPromotion("x76+")
  {
    assert "N76+"[..1] == "N";
    assert "x76+"[..1] == "x";
  }

  /**
   * The promotion branch repeats the lookup that the first branch already
   * found empty, so `submit` never asks for a promotion.
   */
  lemma SubmitNeverPromotes(v: string, opts: SubmitOpts, sans: Option<Sans>, hasSelected: bool, markedWrong: bool)
    requires sans.Some? ==> ValidSans(sans.value)
    ensures forall c | c in Submit(v, opts, sans, hasSelected, markedWrong).commands :: !c.Promote?
  {
  }

  /** A numeric square that is not a move selects that square, through `alpha`, and clears the box. */
  lemma SubmitKeySelects(v: string, opts: SubmitOpts, sans: Option<Sans>, hasSelected: bool, markedWrong: bool)
    requires sans.Some? && ValidSans(sans.value)
    requires IsDigitKey(v) && NotFound(v, sans)
    ensures Submit(v, opts, sans, hasSelected, markedWrong) == Reaction([Select(Alpha(v))], Cleared)
  {
  }

  /**
   * A found move whose text is not an ambiguous promotion (or is forced with
   * Enter) is played from and to the squares of its uci.
   */
  lemma SubmitPlaysFoundMove(v: string, opts: SubmitOpts, sans: Sans, hasSelected: bool, markedWrong: bool)
    requires ValidSans(sans)
    requires |v| >= 2 && Truthy(SanToUci(v, sans))
    requires !IsAmbiguousPromotion(v) || opts.force
    ensures var uci := SanToUci(v, sans).value;
      var r := Submit(v, opts, Some(sans), hasSelected, markedWrong);
      r.input == Cleared && r.commands[|r.commands| - 1] == PlaySan(Alpha(uci[..2]), Alpha(uci[2..]))
  {
  }
}
