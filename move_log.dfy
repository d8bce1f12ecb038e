/** The move list panel (`components/move-log.tsx`): the text copied by "Copiar PGN", built
    in a loop two moves at a time, and the rows shown on screen, one per move pair. The
    copied text approximates PGN movetext (section 8.2.2 of the PGN standard): a move number
    indication "k." before white's move, and single spaces between tokens. */
module MoveLog {
  import opened Types
  import opened Text

  /** The number of move pairs, `Math.ceil(n / 2)`. */
  function Pairs(n: nat): (k: nat)
    ensures 2 * k == n || 2 * k == n + 1
  {
    (n + 1) / 2
  }

  /** One pass of the loop for pair `j`: `${j + 1}. ${white} ${black || ""} `. */
  function Group(moves: seq<string>, j: nat): string
    requires 2 * j < |moves|
  {
    NatToDecimal(j + 1) + ". " + moves[2 * j] + " " + (if 2 * j + 1 < |moves| then moves[2 * j + 1] else "") + " "
  }

  /** The text before trimming, after the first `k` pairs. */
  function Raw(moves: seq<string>, k: nat): string
    requires k <= Pairs(|moves|)
  {
    if k == 0 then "" else Raw(moves, k - 1) + Group(moves, k - 1)
  }

  /** What `handleCopyPGN` hands to the clipboard. */
  function CopyText(moves: seq<string>): string {
    Trim(Raw(moves, Pairs(|moves|)))
  }

  lemma HalfOfDouble(k: nat)
    ensures (2 * k) / 2 == k
  {
  }

  /** `handleCopyPGN`'s loop: `i` steps by two, and each step appends one pair. */
  method HandleCopyPGN(moves: seq<string>) returns (text: string)
    ensures text == CopyText(moves)
  {
    var pgn := "";
    var i := 0;
    ghost var k := 0;
    while i < |moves|
      invariant i == 2 * k && k <= Pairs(|moves|)
      invariant pgn == Raw(moves, k)
    {
      HalfOfDouble(k);
      var line := NatToDecimal(i / 2 + 1) + ". " + moves[i] + " " + (if i + 1 < |moves| then moves[i + 1] else "") + " ";
      assert line == Group(moves, k);
      pgn := pgn + line;
      i := i + 2;
      k := k + 1;
    }
    assert k == Pairs(|moves|);
    text := Trim(pgn);
  }

  // ---------------------------------------------------------------- the movetext it stands for

  /** The tokens of pair `j`: the number indication, white's move, and black's move when
      there is one. */
  function GroupTokens(moves: seq<string>, j: nat): (t: seq<string>)
    requires 2 * j < |moves|
    ensures |t| == (if 2 * j + 1 < |moves| then 3 else 2)
  {
    [NatToDecimal(j + 1) + ".", moves[2 * j]] + (if 2 * j + 1 < |moves| then [moves[2 * j + 1]] else [])
  }

  function Tokens(moves: seq<string>, k: nat): seq<string>
    requires k <= Pairs(|moves|)
  {
    if k == 0 then [] else Tokens(moves, k - 1) + GroupTokens(moves, k - 1)
  }

  /** The movetext: all tokens joined by single spaces. */
  function MoveText(moves: seq<string>): string {
    Join(Tokens(moves, Pairs(|moves|)), " ")
  }

  /** The tokens are laid out pair by pair: the numbers 1, 2, 3, ... each followed by the
      pair's moves in input order, and there are n moves plus ceil(n/2) numbers. */
  lemma {:induction false} TokensLayout(moves: seq<string>, k: nat)
    requires k <= Pairs(|moves|)
    ensures |Tokens(moves, k)| == (if 2 * k <= |moves| then 3 * k else 3 * k - 1)
    ensures k > 0 ==> Tokens(moves, k)[0] == NatToDecimal(1) + "."
    ensures forall j :: 0 <= j < k ==>
      && Tokens(moves, k)[3 * j] == NatToDecimal(j + 1) + "."
      && Tokens(moves, k)[3 * j + 1] == moves[2 * j]
      && (2 * j + 1 < |moves| ==> Tokens(moves, k)[3 * j + 2] == moves[2 * j + 1])
  {
    if k > 0 {
      TokensLayout(moves, k - 1);
      var prev := Tokens(moves, k - 1);
      var t := Tokens(moves, k);
      assert |prev| == 3 * (k - 1);
      assert t == prev + GroupTokens(moves, k - 1);
      if k > 1 {
        assert t[0] == prev[0];
      }
      forall j | 0 <= j < k
        ensures t[3 * j] == NatToDecimal(j + 1) + "."
        ensures t[3 * j + 1] == moves[2 * j]
        ensures 2 * j + 1 < |moves| ==> t[3 * j + 2] == moves[2 * j + 1]
      {
        if j < k - 1 {
          assert t[3 * j] == prev[3 * j] && t[3 * j + 1] == prev[3 * j + 1] && t[3 * j + 2] == prev[3 * j + 2];
        }
      }
    }
  }

  lemma {:induction false} JoinAppend(p: seq<string>, q: seq<string>, sep: string)
    requires p != [] && q != []
    ensures Join(p + q, sep) == Join(p, sep) + sep + Join(q, sep)
    decreases |q|
  {
    if |q| == 1 {
      assert (p + q)[..|p + q| - 1] == p;
    } else {
      var q' := q[..|q| - 1];
      assert (p + q)[..|p + q| - 1] == p + q';
      JoinAppend(p, q', sep);
    }
  }

  lemma JoinGroup(moves: seq<string>, j: nat)
    requires 2 * j < |moves|
    ensures Join(GroupTokens(moves, j), " ") ==
      NatToDecimal(j + 1) + "." + " " + moves[2 * j] + (if 2 * j + 1 < |moves| then " " + moves[2 * j + 1] else "")
  {
    var t := GroupTokens(moves, j);
    var a := NatToDecimal(j + 1) + ".";
    var w := moves[2 * j];
    assert [a, w][..1] == [a];
    assert Join([a, w], " ") == a + " " + w;
    if 2 * j + 1 < |moves| {
      var b := moves[2 * j + 1];
      assert t == [a, w, b] && t[..2] == [a, w];
      assert Join(t, " ") == (a + " " + w) + " " + b;
    } else {
      assert t == [a, w];
    }
  }

  /** One loop step's text is the pair's tokens joined, then one space, or two when black's
      move is missing. */
  lemma GroupIsTokens(moves: seq<string>, j: nat)
    requires 2 * j < |moves|
    ensures Join(GroupTokens(moves, j), " ") + (if 2 * j + 1 < |moves| then " " else "  ") == Group(moves, j)
  {
    JoinGroup(moves, j);
    var num := NatToDecimal(j + 1) + ".";
    var w := moves[2 * j];
    var jg := Join(GroupTokens(moves, j), " ");
    if 2 * j + 1 < |moves| {
      var black := moves[2 * j + 1];
      assert Group(moves, j) == num + " " + w + " " + black + " ";
      assert jg == num + " " + w + (" " + black);
    } else {
      assert Group(moves, j) == num + " " + w + " " + "" + " ";
      assert jg == num + " " + w + "";
    }
  }

  /** Before trimming, the loop's text is the movetext followed by one space, or by two when
      the last pair has no black move. */
  lemma {:induction false} RawIsTokens(moves: seq<string>, k: nat)
    requires 1 <= k <= Pairs(|moves|)
    ensures Raw(moves, k) == Join(Tokens(moves, k), " ") + (if 2 * k <= |moves| then " " else "  ")
  {
    GroupIsTokens(moves, k - 1);
    var g := Group(moves, k - 1);
    var jg := Join(GroupTokens(moves, k - 1), " ");
    var tail := if 2 * k <= |moves| then " " else "  ";
    assert jg + tail == g;
    if k == 1 {
      assert Tokens(moves, 1) == GroupTokens(moves, 0);
      assert Raw(moves, 1) == g;
    } else {
      RawIsTokens(moves, k - 1);
      var prev := Tokens(moves, k - 1);
      assert prev != [] by { TokensLayout(moves, k - 1); }
      JoinAppend(prev, GroupTokens(moves, k - 1), " ");
      var jp := Join(prev, " ");
      assert Raw(moves, k) == Raw(moves, k - 1) + g;
      assert Tokens(moves, k) == prev + GroupTokens(moves, k - 1);
      Reassociate(jp, jg, tail);
    }
  }

  lemma Reassociate(a: string, b: string, tail: string)
    ensures (a + " ") + (b + tail) == (a + " " + b) + tail
  {
  }

  /** For any non-empty list whose last move does not end in whitespace (SAN never does),
      the copied text is exactly the movetext: trimming removes just the trailing space or
      spaces the loop leaves. */
  lemma CopyTextIsMoveText(moves: seq<string>)
    requires |moves| > 0
    requires var last := moves[|moves| - 1]; last != [] && !IsJsWhitespace(last[|last| - 1])
    ensures CopyText(moves) == MoveText(moves)
  {
    var k := Pairs(|moves|);
    RawIsTokens(moves, k);
    MoveTextEnds(moves);
    TrimSpaces(MoveText(moves), if 2 * k <= |moves| then " " else "  ");
  }

  /** The movetext starts with the digit of "1." and ends with the last move's last
      character. */
  lemma MoveTextEnds(moves: seq<string>)
    requires |moves| > 0
    requires var last := moves[|moves| - 1]; last != [] && !IsJsWhitespace(last[|last| - 1])
    ensures var text := MoveText(moves); text != [] && !IsJsWhitespace(text[0]) && !IsJsWhitespace(text[|text| - 1])
  {
    var k := Pairs(|moves|);
    TokensLayout(moves, k);
    var toks := Tokens(moves, k);
    var last := moves[|moves| - 1];
    assert toks[|toks| - 1] == last by {
      if 2 * k <= |moves| {
        assert toks[3 * (k - 1) + 2] == moves[2 * (k - 1) + 1];
      } else {
        assert toks[3 * (k - 1) + 1] == moves[2 * (k - 1)];
      }
    }
    JoinEndsWith(toks, " ");
    assert toks[0] == NatToDecimal(1) + ".";
    JoinStartsWith(toks, " ");
  }

  /** Trailing spaces after a text that starts and ends with something else are exactly what
      Trim removes. */
  lemma TrimSpaces(text: string, tail: string)
    requires text != [] && !IsJsWhitespace(text[0]) && !IsJsWhitespace(text[|text| - 1])
    requires tail == " " || tail == "  "
    ensures Trim(text + tail) == text
  {
    var raw := text + tail;
    assert raw[0] == text[0];
    assert TrimStart(raw) == raw;
    if tail == " " {
      assert raw == text + [' '];
      TrimEndDropsWhitespace(text, ' ');
    } else {
      assert raw == (text + [' ']) + [' '];
      TrimEndDropsWhitespace(text + [' '], ' ');
      TrimEndDropsWhitespace(text, ' ');
    }
    TrimEndKeeps(text);
  }

  lemma {:induction false} JoinEndsWith(parts: seq<string>, sep: string)
    requires |parts| >= 1 && parts[|parts| - 1] != []
    ensures var j := Join(parts, sep); |j| >= |parts[|parts| - 1]| && j[|j| - 1] == parts[|parts| - 1][|parts[|parts| - 1]| - 1]
  {
  }

  lemma {:induction false} JoinStartsWith(parts: seq<string>, sep: string)
    requires |parts| >= 1 && parts[0] != []
    ensures Join(parts, sep) != [] && Join(parts, sep)[0] == parts[0][0]
    decreases |parts|
  {
    if |parts| > 1 {
      var init := parts[..|parts| - 1];
      assert init[0] == parts[0];
      JoinStartsWith(init, sep);
    }
  }

  /** No moves, no text. */
  lemma CopyTextEmpty()
    ensures CopyText([]) == ""
  {
  }

  // ---------------------------------------------------------------- the rows on screen

  /** A row: its number, white's move, and black's move when there is a non-empty one. */
  datatype Row = Row(number: nat, white: string, black: Option<string>)

  /** The list, or the placeholder text when there are no moves. */
  datatype LogView = Placeholder | Listing(rows: seq<Row>)

  function RowAt(moves: seq<string>, idx: nat): Row
    requires 2 * idx < |moves|
  {
    Row(idx + 1, moves[2 * idx], if 2 * idx + 1 < |moves| && moves[2 * idx + 1] != "" then Some(moves[2 * idx + 1]) else None)
  }

  /** `Array.from({ length: Math.ceil(moves.length / 2) }).map(...)`. */
  function Rows(moves: seq<string>): (rows: seq<Row>)
    ensures |rows| == Pairs(|moves|)
  {
    seq(Pairs(|moves|), idx requires 0 <= idx < Pairs(|moves|) => RowAt(moves, idx))
  }

  function View(moves: seq<string>): (v: LogView)
    ensures v.Placeholder? <==> moves == []
  {
    if |moves| == 0 then Placeholder else Listing(Rows(moves))
  }

  /** The moves a sequence of rows shows, in order. */
  function Shown(rows: seq<Row>): seq<string> {
    if rows == [] then []
    else
      var r := rows[|rows| - 1];
      Shown(rows[..|rows| - 1]) + [r.white] + (if r.black.Some? then [r.black.value] else [])
  }

  /** Reading the rows top to bottom, left to right, gives back the move list when no move
      is empty: every move is shown once, in order, numbered by its pair. */
  lemma {:induction false} RowsShowEveryMove(moves: seq<string>, k: nat)
    requires k <= Pairs(|moves|)
    requires forall i :: 0 <= i < |moves| ==> moves[i] != ""
    ensures Shown(Rows(moves)[..k]) == moves[..if 2 * k <= |moves| then 2 * k else |moves|]
  {
    if k > 0 {
      RowsShowEveryMove(moves, k - 1);
      var rows := Rows(moves)[..k];
      assert rows[..k - 1] == Rows(moves)[..k - 1];
      assert rows[k - 1] == RowAt(moves, k - 1);
      if 2 * k <= |moves| {
        assert moves[..2 * k] == moves[..2 * (k - 1)] + [moves[2 * k - 2]] + [moves[2 * k - 1]];
      } else {
        assert moves[..|moves|] == moves[..2 * (k - 1)] + [moves[2 * k - 2]];
      }
    }
  }

  lemma RowsRoundTrip(moves: seq<string>)
    requires forall i :: 0 <= i < |moves| ==> moves[i] != ""
    ensures Shown(Rows(moves)) == moves
  {
    RowsShowEveryMove(moves, Pairs(|moves|));
    assert Rows(moves)[..Pairs(|moves|)] == Rows(moves);
    assert moves[..|moves|] == moves;
  }
}
