/**
 * Move and board rendering for screen readers: notation in several spoken
 * styles, the text board, piece lists and the castling shorthand of the
 * command line.
 */
module NvuiChess {
  import opened Options
  import opened Text
  import opened ShogiRules

  datatype Style = Usi | San | Literate | Nato | Anna

  /** A square key of the board widget: file letter and rank digit. */
  type Key = s: string | |s| == 2 witness "a1"

  datatype Piece = Piece(color: Color, role: Role)

  /** A template literal prints a missing table entry as "undefined". */
  function OrUndefined(w: Option<string>): string {
    if w.Some? then w.value else "undefined"
  }

  /** The `nato` table: files a to h only. */
  function NatoWord(f: string): Option<string> {
    if f == "a" then Some("alpha") else if f == "b" then Some("bravo")
    else if f == "c" then Some("charlie") else if f == "d" then Some("delta")
    else if f == "e" then Some("echo") else if f == "f" then Some("foxtrot")
    else if f == "g" then Some("golf") else if f == "h" then Some("hotel")
    else None
  }

  /** The `anna` table: files a to h only. */
  function AnnaWord(f: string): Option<string> {
    if f == "a" then Some("anna") else if f == "b" then Some("bella")
    else if f == "c" then Some("cesar") else if f == "d" then Some("david")
    else if f == "e" then Some("eva") else if f == "f" then Some("felix")
    else if f == "g" then Some("gustav") else if f == "h" then Some("hector")
    else None
  }

  /** The `roles` table, from upper-case piece letter to role name. */
  function RoleWord(letter: string): Option<string> {
    if letter == "P" then Some("pawn") else if letter == "R" then Some("rook")
    else if letter == "N" then Some("knight") else if letter == "B" then Some("bishop")
    else if letter == "K" then Some("king") else if letter == "G" then Some("gold")
    else if letter == "S" then Some("silver") else if letter == "L" then Some("lance")
    else if letter == "T" then Some("tokin") else if letter == "A" then Some("promotedsilver")
    else if letter == "M" then Some("promotedknight") else if letter == "U" then Some("promotedlance")
    else if letter == "H" then Some("horse") else if letter == "D" then Some("dragon")
    else None
  }

  /** The role names of the board widget. */
  function RoleName(r: Role): string {
    match r
    case Pawn => "pawn" case Rook => "rook" case Knight => "knight" case Bishop => "bishop"
    case King => "king" case Gold => "gold" case Silver => "silver" case Lance => "lance"
    case Tokin => "tokin" case PromotedSilver => "promotedsilver"
    case PromotedKnight => "promotedknight" case PromotedLance => "promotedlance"
    case Horse => "horse" case Dragon => "dragon"
  }

  /** The `letters` table, from role to lower-case board letter. */
  function Letter(r: Role): char {
    match r
    case Pawn => 'p' case Rook => 'r' case Knight => 'n' case Bishop => 'b'
    case King => 'k' case Gold => 'g' case Silver => 's' case Lance => 'l'
    case Tokin => 't' case PromotedSilver => 'a' case PromotedKnight => 'm'
    case PromotedLance => 'u' case Horse => 'h' case Dragon => 'd'
  }

  function ColorName(c: Color): string {
    if c == Sente then "sente" else "gote"
  }

  /** The board letter of a role, upper-cased, names that role again in the `roles` table. */
  lemma LetterRoleRoundTrip(r: Role)
    ensures RoleWord([UpperChar(Letter(r))]) == Some(RoleName(r))
  {
  }

  /**
   * `renderFile`: the spoken name of a file. It is the file itself except
   * in the nato and anna styles, whose tables stop at 'h'; every name starts
   * with the file's own letter.
   */
  function RenderFile(f: string, style: Style): (r: Option<string>)
    ensures style != Nato && style != Anna ==> r == Some(f)
    ensures r.Some? <==> (style != Nato && style != Anna) || (|f| == 1 && 'a' <= f[0] <= 'h')
    ensures r.Some? && |f| > 0 ==> |r.value| > 0 && r.value[0] == f[0]
  {
    if style == Nato then NatoWord(f) else if style == Anna then AnnaWord(f) else Some(f)
  }

  /**
   * `renderKey`: file name, a space, the rank. A file without a name is
   * printed as "undefined".
   */
  function RenderKey(key: Key, style: Style): (r: string)
    ensures |r| >= 3 && r[|r| - 1] == key[1] && r[|r| - 2] == ' '
    ensures RenderFile([key[0]], style).Some? ==> r[0] == key[0]
    ensures RenderFile([key[0]], style).None? ==> r == "undefined " + [key[1]]
  {
    OrUndefined(RenderFile([key[0]], style)) + " " + [key[1]]
  }

  /** The nato and anna styles have no name for the ninth file. */
  lemma NinthFileUnnamed()
    ensures RenderFile("i", Nato).None? && RenderFile("i", Anna).None?
    ensures RenderKey("i5", Nato) == "undefined 5"
    ensures RenderFile("i", Literate) == Some("i")
  {
  }

  predicate IsMark(c: char) { c == '+' || c == '#' }

  /** `san.replace(/[\+#]/, '')` */
  function RemoveFirstMark(s: string): string {
    if s == [] then []
    else if IsMark(s[0]) then s[1..]
    else [s[0]] + RemoveFirstMark(s[1..])
  }

  /** Text without a '+' or '#' is left as it is. */
  lemma {:induction false} RemoveFirstMarkWithout(s: string)
    requires forall i | 0 <= i < |s| :: !IsMark(s[i])
    ensures RemoveFirstMark(s) == s
  {
    if s != [] {
      RemoveFirstMarkWithout(s[1..]);
    }
  }

  /** Only the first '+' or '#' is removed, wherever it stands. */
  lemma {:induction false} RemoveFirstMarkAt(s: string, i: nat)
    requires i < |s| && IsMark(s[i]) && forall j | 0 <= j < i :: !IsMark(s[j])
    ensures RemoveFirstMark(s) == s[..i] + s[i + 1..]
  {
    if i > 0 {
      RemoveFirstMarkAt(s[1..], i - 1);
      assert s[..i] == [s[0]] + s[1..][..i - 1];
    }
  }

  /** The removal drops at most one character and adds none. */
  lemma {:induction false} RemoveFirstMarkKeeps(s: string)
    ensures |RemoveFirstMark(s)| >= |s| - 1
    ensures forall c | c in RemoveFirstMark(s) :: c in s
  {
    if s != [] && !IsMark(s[0]) {
      RemoveFirstMarkKeeps(s[1..]);
    }
  }

  /** One character of the san in the literate, nato and anna styles. */
  function Token(c: char, style: Style): (t: string)
    ensures c != ' ' ==> ' ' !in t
  {
    if c == 'x' then "takes"
    else if c == '+' then PromotionWord
    else if c == '#' then CheckmateWord
    else if c == '=' then "unpromotion"
    else if 48 < c as int < 58 then [c]
    // a file the table cannot name maps to `undefined`, which `join` prints as nothing
    else if 96 < c as int < 106 then (var f := RenderFile([c], style); if f.Some? then f.value else "")
    else if RoleWord([c]).Some? then RoleWord([c]).value
    else [c]
  }

  function Tokens(s: string, style: Style): (ts: seq<string>)
    ensures |ts| == |s|
  {
    seq(|s|, i requires 0 <= i < |s| => Token(s[i], style))
  }

  const PromotionWord := "promotion"
  const CheckmateWord := "checkmate"

  /** The words appended for a promotion and a checkmate in every style. */
  function Suffix(san: string): string {
    (if '+' in san then " " + PromotionWord else "") + (if '#' in san then " " + CheckmateWord else "")
  }

  predicate IsSpoken(style: Style) {
    style == Literate || style == Nato || style == Anna
  }

  /** `renderSan` */
  function RenderSan(san: string, usi: Option<string>, style: Style): (r: string)
    ensures san == "" ==> r == ""
    ensures san != "" && '+' in san && '#' !in san ==> EndsWith(r, " " + PromotionWord)
    ensures san != "" && '#' in san ==> EndsWith(r, " " + CheckmateWord)
    ensures san != "" && style == Usi && usi.Some? && usi.value != "" ==> usi.value <= r
    ensures san != "" && style == Usi && (usi.None? || usi.value == "") ==> san <= r
  {
    if san == "" then ""
    else
      var move :=
        if style == San then RemoveFirstMark(san)
        else if style == Usi then (if usi.Some? && usi.value != "" then usi.value else san)
        else Join(Tokens(RemoveFirstMark(san), style), " ");
      move + Suffix(san)
  }

  /** In the san style the move loses its first '+' or '#' and nothing else. */
  lemma SanStyleText(san: string, usi: Option<string>)
    requires san != ""
    ensures RenderSan(san, usi, San) == RemoveFirstMark(san) + Suffix(san)
  {
  }

  /** In the usi style the move is the usi when it is non-empty, else the san, then the suffix words. */
  lemma UsiStyleText(san: string, usi: Option<string>)
    requires san != ""
    ensures RenderSan(san, usi, Usi) == (if usi.Some? && usi.value != "" then usi.value else san) + Suffix(san)
  {
  }

  /** A san holding both marks ends in both words, promotion first, in every style. */
  lemma PromotionThenCheckmate(san: string, usi: Option<string>, style: Style)
    requires san != "" && '+' in san && '#' in san
    ensures EndsWith(RenderSan(san, usi, style), " " + PromotionWord + " " + CheckmateWord)
  {
  }

  lemma {:induction false} JoinAppend(parts: seq<string>, w: string, sep: string)
    requires |parts| > 0
    ensures Join(parts + [w], sep) == Join(parts, sep) + sep + w
  {
    if |parts| > 1 {
      JoinAppend(parts[1..], w, sep);
      assert (parts + [w])[1..] == parts[1..] + [w];
    }
  }

  /** The words of a spoken rendering: one per character of the san, then the suffix words. */
  function SpokenWordList(san: string, style: Style): seq<string> {
    Tokens(RemoveFirstMark(san), style)
    + (if '+' in san then [PromotionWord] else [])
    + (if '#' in san then [CheckmateWord] else [])
  }

  lemma AppendWordIf(ts: seq<string>, flag: bool, w: string)
    requires |ts| > 0
    ensures Join(ts, " ") + (if flag then " " + w else "") == Join(ts + (if flag then [w] else []), " ")
  {
    if flag {
      JoinAppend(ts, w, " ");
    } else {
      assert ts + [] == ts;
    }
  }

  lemma SuffixWords(ts: seq<string>, plus: bool, mate: bool)
    requires |ts| > 0
    ensures Join(ts, " ") + (if plus then " " + PromotionWord else "") + (if mate then " " + CheckmateWord else "")
      == Join(ts + (if plus then [PromotionWord] else []) + (if mate then [CheckmateWord] else []), " ")
  {
    var p := if plus then [PromotionWord] else [];
    AppendWordIf(ts, plus, PromotionWord);
    AppendWordIf(ts + p, mate, CheckmateWord);
  }

  lemma SpokenText(san: string, usi: Option<string>, style: Style)
    requires IsSpoken(style) && |san| >= 2
    ensures RenderSan(san, usi, style) == Join(SpokenWordList(san, style), " ")
  {
    RemoveFirstMarkKeeps(san);
    SuffixWords(Tokens(RemoveFirstMark(san), style), '+' in san, '#' in san);
  }

  lemma SpokenWordsHaveNoSpace(san: string, style: Style)
    requires ' ' !in san
    ensures forall i | 0 <= i < |SpokenWordList(san, style)| :: ' ' !in SpokenWordList(san, style)[i]
  {
    RemoveFirstMarkKeeps(san);
    var body := RemoveFirstMark(san);
    var ts := Tokens(body, style);
    assert forall i | 0 <= i < |ts| :: ' ' !in ts[i] by {
      forall i | 0 <= i < |ts|
        ensures ' ' !in ts[i]
      {
        assert body[i] in san;
      }
    }
  }

  /**
   * In the spoken styles, splitting the rendered text at its spaces gives the
   * word of each character of the san (its first mark removed) followed by
   * "promotion" and "checkmate" as the san asks: the words can be told apart.
   */
  lemma SpokenWords(san: string, usi: Option<string>, style: Style)
    requires IsSpoken(style) && |san| >= 2 && ' ' !in san
    ensures Split(RenderSan(san, usi, style), ' ') ==
      Tokens(RemoveFirstMark(san), style)
      + (if '+' in san then [PromotionWord] else [])
      + (if '#' in san then [CheckmateWord] else [])
  {
    SpokenText(san, usi, style);
    SpokenWordsHaveNoSpace(san, style);
    RemoveFirstMarkKeeps(san);
    SplitJoin(SpokenWordList(san, style), ' ');
  }

  /** The pieces of the board widget, by key, in the iteration order of its `Map`. */
  type Pieces = seq<(Key, Piece)>

  /** `pieces.get(key)` */
  function Get(pieces: Pieces, key: Key): (r: Option<Piece>)
    ensures r.Some? <==> exists i | 0 <= i < |pieces| :: pieces[i].0 == key
  {
    if pieces == [] then None
    else if pieces[0].0 == key then Some(pieces[0].1)
    else (assert forall i | 1 <= i < |pieces| :: pieces[i] == pieces[1..][i - 1]; Get(pieces[1..], key))
  }

  const Files: string := "abcdefghi"
  const Ranks: string := "123456789"
  const InvRanks: string := "987654321"

  /** `allKeys`: file by file, rank by rank within a file. */
  const AllKeys: seq<Key> := seq(81, i requires 0 <= i < 81 => [Files[i / 9], Ranks[i % 9]])

  /** One square of the text board: the piece letter (upper case for sente) or a '+'/'-' pattern. */
  function Cell(pieces: Pieces, key: Key): string {
    var p := Get(pieces, key);
    if p.Some? then
      (if p.value.color == Sente then [UpperChar(Letter(p.value.role))] else [Letter(p.value.role)])
    else if (key[0] as int + key[1] as int) % 2 == 1 then "-" else "+"
  }

  function HeaderRow(): seq<string> {
    [" "] + seq(9, j requires 0 <= j < 9 => [Files[j]]) + [" "]
  }

  function RankRow(pieces: Pieces, rank: char): seq<string> {
    [[rank]] + seq(9, j requires 0 <= j < 9 => Cell(pieces, [Files[j], rank])) + [[rank]]
  }

  /** The rows as sente sees them: header, ranks 9 down to 1, footer. */
  function SenteGrid(pieces: Pieces): seq<seq<string>> {
    [HeaderRow()] + seq(9, i requires 0 <= i < 9 => RankRow(pieces, InvRanks[i])) + [HeaderRow()]
  }

  /** The grid `renderBoard` builds: for gote both the rows and each row are reversed. */
  function BoardGrid(pieces: Pieces, pov: Color): seq<seq<string>> {
    var g := SenteGrid(pieces);
    if pov == Gote then seq(11, i requires 0 <= i < 11 => Reverse(Reverse(g)[i])) else g
  }

  function RowTexts(grid: seq<seq<string>>): seq<string> {
    seq(|grid|, i requires 0 <= i < |grid| => Join(grid[i], " "))
  }

  /** The rank printed at both ends of row `i` (1 to 9) of the board seen by `pov`. */
  function RankLabel(pov: Color, i: nat): char
    requires 1 <= i <= 9
  {
    if pov == Sente then InvRanks[i - 1] else Ranks[i - 1]
  }

  lemma SenteGridShape(pieces: Pieces)
    ensures var g := SenteGrid(pieces);
      |g| == 11 && g[0] == HeaderRow() && g[10] == HeaderRow()
      && forall i | 1 <= i <= 9 :: g[i] == RankRow(pieces, InvRanks[i - 1])
  {
  }

  lemma RowShapes(pieces: Pieces, rank: char)
    ensures |HeaderRow()| == 11
    ensures var row := RankRow(pieces, rank); |row| == 11 && row[0] == [rank] && row[10] == [rank]
  {
  }

  /** Sente's grid: eleven rows of eleven cells, labelled 9 down to 1. */
  lemma SenteBoardShape(pieces: Pieces)
    ensures var sg := SenteGrid(pieces);
      |sg| == 11 && (forall i | 0 <= i < 11 :: |sg[i]| == 11)
      && sg[0] == HeaderRow() && sg[10] == HeaderRow()
      && forall i | 1 <= i <= 9 :: sg[i][0] == [InvRanks[i - 1]] && sg[i][10] == [InvRanks[i - 1]]
  {
    var sg := SenteGrid(pieces);
    SenteGridShape(pieces);
    RowShapes(pieces, '1');
    forall i | 1 <= i <= 9
      ensures |sg[i]| == 11 && sg[i][0] == [InvRanks[i - 1]] && sg[i][10] == [InvRanks[i - 1]]
    {
      RowShapes(pieces, InvRanks[i - 1]);
    }
  }

  /** Gote's row `i` is sente's row `10 - i`, read backwards. */
  lemma GoteRows(pieces: Pieces)
    ensures var g, sg := BoardGrid(pieces, Gote), SenteGrid(pieces);
      |g| == 11 && |sg| == 11 && forall i | 0 <= i < 11 :: g[i] == Reverse(sg[10 - i])
  {
    SenteGridShape(pieces);
  }

  /**
   * The shape of the text board: eleven rows of eleven cells, a header and a
   * footer of file letters, and each rank row opening and closing with its
   * rank label (9 down to 1 for sente, 1 up to 9 for gote).
   */
  lemma BoardShape(pieces: Pieces, pov: Color)
    ensures var g := BoardGrid(pieces, pov);
      |g| == 11 && (forall i | 0 <= i < 11 :: |g[i]| == 11)
      && g[0] == g[10]
      && g[0] == (if pov == Sente then HeaderRow() else Reverse(HeaderRow()))
      && forall i | 1 <= i <= 9 ::
           g[i][0] == [RankLabel(pov, i)] && g[i][10] == [RankLabel(pov, i)]
  {
    var sg := SenteGrid(pieces);
    SenteBoardShape(pieces);
    if pov == Gote {
      var g := BoardGrid(pieces, pov);
      GoteRows(pieces);
      forall i | 1 <= i <= 9
        ensures g[i][0] == [RankLabel(pov, i)] && g[i][10] == [RankLabel(pov, i)]
      {
        assert g[i] == Reverse(sg[10 - i]);
        assert InvRanks[10 - i - 1] == Ranks[i - 1];
      }
    }
  }

  /** Gote's board is sente's board turned half a turn: cell (i, j) is sente's (10 - i, 10 - j). */
  lemma GoteBoardIsRotated(pieces: Pieces)
    ensures forall i, j | 0 <= i < 11 && 0 <= j < 11 ::
      BoardGrid(pieces, Gote)[i][j] == BoardGrid(pieces, Sente)[10 - i][10 - j]
  {
    BoardShape(pieces, Sente);
  }

  /** `renderBoard`: the grid built rank by rank and file by file, reversed for gote, joined into lines. */
  method RenderBoard(pieces: Pieces, pov: Color) returns (text: string)
    ensures text == Join(RowTexts(BoardGrid(pieces, pov)), "\n")
  {
    var board := [HeaderRow()];
    for ri := 0 to 9
      invariant board == [HeaderRow()] + seq(ri, i requires 0 <= i < ri => RankRow(pieces, InvRanks[i]))
    {
      var rank := InvRanks[ri];
      var line: seq<string> := [];
      for fi := 0 to 9
        invariant line == seq(fi, j requires 0 <= j < fi => Cell(pieces, [Files[j], rank]))
      {
        var key: Key := [Files[fi], rank];
        var piece := Get(pieces, key);
        if piece.Some? {
          var letter := Letter(piece.value.role);
          line := line + [if piece.value.color == Sente then [UpperChar(letter)] else [letter]];
        } else {
          line := line + [if (key[0] as int + key[1] as int) % 2 == 1 then "-" else "+"];
        }
      }
      board := board + [[[rank]] + line + [[rank]]];
    }
    board := board + [HeaderRow()];
    assert board == SenteGrid(pieces);
    if pov == Gote {
      board := Reverse(board);
      for k := 0 to |board|
        invariant |board| == 11
        invariant forall i | 0 <= i < k :: board[i] == Reverse(Reverse(SenteGrid(pieces))[i])
        invariant forall i | k <= i < 11 :: board[i] == Reverse(SenteGrid(pieces))[i]
      {
        board := board[k := Reverse(board[k])];
      }
    }
    assert board == BoardGrid(pieces, pov);
    text := Join(seq(|board|, i requires 0 <= i < |board| => Join(board[i], " ")), "\n");
  }

  /** `${piece.color} ${piece.role}` */
  function PieceName(p: Piece): string {
    ColorName(p.color) + " " + RoleName(p.role)
  }

  /** The name `renderPieceKeys` asks for: the case of `p` picks the side, its upper case the role. */
  function RequestedName(p: string): string {
    (if p == Upper(p) then "sente" else "gote") + " " + OrUndefined(RoleWord(Upper(p)))
  }

  /** The keys, in order, whose piece is called `name`. */
  function KeysNamed(pieces: Pieces, name: string): (ks: seq<Key>)
    ensures |ks| == 0 <==> forall i | 0 <= i < |pieces| :: PieceName(pieces[i].1) != name
  {
    if pieces == [] then []
    else
      var rest := KeysNamed(pieces[..|pieces| - 1], name);
      assert forall i | 0 <= i < |pieces| - 1 :: pieces[i] == pieces[..|pieces| - 1][i];
      if PieceName(pieces[|pieces| - 1].1) == name then rest + [pieces[|pieces| - 1].0] else rest
  }

  function RenderKeys(keys: seq<Key>, style: Style): seq<string> {
    seq(|keys|, i requires 0 <= i < |keys| => RenderKey(keys[i], style))
  }

  /** A non-empty list whose first entry holds a space never joins to a word without one. */
  lemma JoinedIsNotWord(parts: seq<string>, sep: string, word: string)
    requires |parts| > 0 && ' ' in parts[0] && ' ' !in word
    ensures Join(parts, sep) != word
  {
    JoinStartsWithFirst(parts, sep);
    var k :| 0 <= k < |parts[0]| && parts[0][k] == ' ';
    assert Join(parts, sep)[k] == ' ';
  }

  /** `${name}: ${keys or 'none'}`: the keys listed after a name, "none" exactly when there are none. */
  function KeyListing(name: string, keys: seq<Key>, style: Style): (r: string)
    ensures r == name + ": none" <==> |keys| == 0
    ensures |r| >= |name| + 2 && r[..|name| + 2] == name + ": "
    ensures |keys| > 0 ==> r[|name| + 2..] == Join(RenderKeys(keys, style), ", ")
  {
    var listed := if |keys| > 0 then Join(RenderKeys(keys, style), ", ") else "none";
    if |keys| > 0 then
      var rendered := RenderKeys(keys, style);
      assert rendered[0][|rendered[0]| - 2] == ' ';
      JoinedIsNotWord(rendered, ", ", "none");
      SameHeadSameTail(name + ": ", listed, "none");
      name + ": " + listed
    else
      name + ": " + listed
  }

  /**
   * `renderPieceKeys`: the requested name, then the keys holding such a
   * piece, or "none" when there is no such piece.
   */
  method RenderPieceKeys(pieces: Pieces, p: string, style: Style) returns (r: string)
    ensures r == KeyListing(RequestedName(p), KeysNamed(pieces, RequestedName(p)), style)
    ensures r == RequestedName(p) + ": none" <==> forall i | 0 <= i < |pieces| :: PieceName(pieces[i].1) != RequestedName(p)
  {
    var name := RequestedName(p);
    var res: seq<Key> := [];
    for i := 0 to |pieces|
      invariant res == KeysNamed(pieces[..i], name)
    {
      KeysNamedStep(pieces, i, name);
      if PieceName(pieces[i].1) == name {
        res := res + [pieces[i].0];
      }
    }
    assert pieces[..|pieces|] == pieces;
    r := KeyListing(name, res, style);
    NoneExactlyWhenAbsent(pieces, name, style);
  }

  /** One more piece scanned: its key is appended exactly when its name matches. */
  lemma KeysNamedStep(pieces: Pieces, i: nat, name: string)
    requires i < |pieces|
    ensures KeysNamed(pieces[..i + 1], name)
      == KeysNamed(pieces[..i], name) + if PieceName(pieces[i].1) == name then [pieces[i].0] else []
  {
    assert pieces[..i + 1][..i] == pieces[..i];
  }

  /** The listing says "none" exactly when no piece carries the name. */
  lemma NoneExactlyWhenAbsent(pieces: Pieces, name: string, style: Style)
    ensures KeyListing(name, KeysNamed(pieces, name), style) == name + ": none"
      <==> forall i | 0 <= i < |pieces| :: PieceName(pieces[i].1) != name
  {
  }

  lemma SameHeadSameTail(head: string, a: string, b: string)
    ensures head + a == head + b <==> a == b
  {
    if head + a == head + b {
      assert a == (head + a)[|head|..];
    }
  }

  /** The entry `renderPiecesOn` lists for an occupied square. */
  function SquareEntry(k: Key, p: Piece, style: Style): (e: string)
    ensures ' ' in e
  {
    var e := RenderKey(k, style) + " " + ColorName(p.color) + " " + RoleName(p.role);
    assert e[|RenderKey(k, style)|] == ' ';
    e
  }

  /** The entries for the keys of `keys` that contain `rankOrFile` and hold a piece. */
  function EntriesOn(pieces: Pieces, keys: seq<Key>, rankOrFile: string, style: Style): (es: seq<string>)
    ensures |es| == 0 <==> forall i | 0 <= i < |keys| :: !(Includes(keys[i], rankOrFile) && Get(pieces, keys[i]).Some?)
    ensures forall i | 0 <= i < |es| :: ' ' in es[i]
  {
    if keys == [] then []
    else
      var n := |keys| - 1;
      var rest := EntriesOn(pieces, keys[..n], rankOrFile, style);
      assert forall i | 0 <= i < n :: keys[i] == keys[..n][i];
      var piece := Get(pieces, keys[n]);
      if Includes(keys[n], rankOrFile) && piece.Some? then rest + [SquareEntry(keys[n], piece.value, style)] else rest
  }

  /** One more key scanned: its entry is appended exactly when it contains `rankOrFile` and holds a piece. */
  lemma EntriesOnStep(pieces: Pieces, keys: seq<Key>, i: nat, rankOrFile: string, style: Style)
    requires i < |keys|
    ensures var piece := Get(pieces, keys[i]);
      EntriesOn(pieces, keys[..i + 1], rankOrFile, style)
        == EntriesOn(pieces, keys[..i], rankOrFile, style)
           + if Includes(keys[i], rankOrFile) && piece.Some? then [SquareEntry(keys[i], piece.value, style)] else []
  {
    assert keys[..i + 1][..i] == keys[..i];
  }

  /**
   * `renderPiecesOn`: the occupied squares whose key contains `rankOrFile`
   * (a file letter or a rank digit), in `allKeys` order, or "blank" when
   * there is none.
   */
  method RenderPiecesOn(pieces: Pieces, rankOrFile: string, style: Style) returns (r: string)
    ensures r == "blank" <==> forall i | 0 <= i < |AllKeys| :: !(Includes(AllKeys[i], rankOrFile) && Get(pieces, AllKeys[i]).Some?)
    ensures r != "blank" ==> r == Join(EntriesOn(pieces, AllKeys, rankOrFile, style), ", ")
  {
    var res: seq<string> := [];
    for i := 0 to |AllKeys|
      invariant res == EntriesOn(pieces, AllKeys[..i], rankOrFile, style)
    {
      EntriesOnStep(pieces, AllKeys, i, rankOrFile, style);
      var k := AllKeys[i];
      if Includes(k, rankOrFile) {
        var piece := Get(pieces, k);
        if piece.Some? {
          res := res + [SquareEntry(k, piece.value, style)];
        }
      }
    }
    assert AllKeys[..|AllKeys|] == AllKeys;
    if |res| > 0 {
      JoinedIsNotWord(res, ", ", "blank");
      r := Join(res, ", ");
    } else {
      r := "blank";
    }
  }

  /** The characters of the regular-expression class `\s`. */
  predicate IsSpace(c: char) {
    c == ' ' || c == '\t' || c == '\n' || c == '\U{000B}' || c == '\U{000C}' || c == '\r'
    || c == '\U{00A0}' || c == '\U{1680}' || '\U{2000}' <= c <= '\U{200A}'
    || c == '\U{2028}' || c == '\U{2029}' || c == '\U{202F}' || c == '\U{205F}'
    || c == '\U{3000}' || c == '\U{FEFF}'
  }

  /** `replace(/[-\s]+/g, '')`: every hyphen and white-space character removed. */
  function DropSeparators(s: string): (r: string)
    ensures forall i | 0 <= i < |r| :: r[i] != '-' && !IsSpace(r[i])
  {
    if s == [] then []
    else if s[0] == '-' || IsSpace(s[0]) then DropSeparators(s[1..])
    else [s[0]] + DropSeparators(s[1..])
  }

  function Squeezed(input: string): string {
    DropSeparators(Lower(input))
  }

  /**
   * `castlingFlavours`: "oo"/"00" (any case, with hyphens and white space)
   * become "o-o", "ooo"/"000" become "o-o-o", and anything else is returned
   * as it was typed.
   */
  function CastlingFlavours(input: string): (r: string)
    ensures r == "o-o" <==> Squeezed(input) in {"oo", "00"}
    ensures r == "o-o-o" <==> Squeezed(input) in {"ooo", "000"}
    ensures r != "o-o" && r != "o-o-o" ==> r == input
  {
    var s := Squeezed(input);
    assert Squeezed("o-o") == "oo";
    assert Squeezed("o-o-o") == "ooo";
    if s == "oo" || s == "00" then "o-o"
    else if s == "ooo" || s == "000" then "o-o-o"
    else input
  }

  /** Applying `castlingFlavours` to its own result changes nothing. */
  lemma CastlingFlavoursIdempotent(input: string)
    ensures CastlingFlavours(CastlingFlavours(input)) == CastlingFlavours(input)
  {
    assert Squeezed("o-o") == "oo";
    assert Squeezed("o-o-o") == "ooo";
  }

  /** `supportedVariant`: the accessible interface serves standard games and games from a position. */
  function SupportedVariant(key: string): (r: bool)
    ensures r <==> key == "standard" || key == "fromPosition"
  {
    key in ["standard", "fromPosition"]
  }
}
