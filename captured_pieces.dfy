/** The captured-pieces panel (`components/captured-pieces.tsx`): the material value of each
    piece letter, the per-letter counts the panel gathers, and the material total it shows. */
module CapturedPieces {

  /** `pieceValues[p] || 0`: pawn 1, knight and bishop 3, rook 5, queen 9, king 0, and 0 for
      any other letter. */
  function PieceValue(p: string): (v: nat)
    ensures v <= 9
    ensures p == "q" <==> v == 9
  {
    if p == "p" then 1
    else if p == "n" || p == "b" then 3
    else if p == "r" then 5
    else if p == "q" then 9
    else 0
  }

  /** `pieces.reduce((sum, p) => sum + (pieceValues[p] || 0), 0)`. */
  function TotalValue(pieces: seq<string>): nat {
    if pieces == [] then 0 else TotalValue(pieces[..|pieces| - 1]) + PieceValue(pieces[|pieces| - 1])
  }

  /** The total lies between nothing and a queen per captured piece; it is the maximum
      exactly when every piece is a queen. */
  lemma {:induction false} TotalValueBounds(pieces: seq<string>)
    ensures 0 <= TotalValue(pieces) <= 9 * |pieces|
    ensures TotalValue(pieces) == 9 * |pieces| <==> forall i :: 0 <= i < |pieces| ==> pieces[i] == "q"
  {
    if pieces != [] {
      var init := pieces[..|pieces| - 1];
      TotalValueBounds(init);
      if forall i :: 0 <= i < |init| ==> init[i] == "q" {
        if pieces[|pieces| - 1] == "q" {
          forall i | 0 <= i < |pieces| ensures pieces[i] == "q" {
            if i < |init| {
              assert pieces[i] == init[i];
            }
          }
        }
      } else {
        var i :| 0 <= i < |init| && init[i] != "q";
        assert pieces[i] == init[i];
      }
    }
  }

  lemma {:induction false} TotalValueConcat(a: seq<string>, b: seq<string>)
    ensures TotalValue(a + b) == TotalValue(a) + TotalValue(b)
    decreases |b|
  {
    if b == [] {
      assert a + b == a;
    } else {
      var b' := b[..|b| - 1];
      assert (a + b)[..|a + b| - 1] == a + b';
      TotalValueConcat(a, b');
    }
  }

  /** The order of the pieces does not matter. */
  lemma {:induction false} TotalValuePermutation(a: seq<string>, b: seq<string>)
    requires multiset(a) == multiset(b)
    ensures TotalValue(a) == TotalValue(b)
    decreases |a|
  {
    if a == [] {
      assert |multiset(b)| == 0;
    } else {
      var init := a[..|a| - 1];
      var x := a[|a| - 1];
      assert a == init + [x];
      assert x in multiset(b);
      var i :| 0 <= i < |b| && b[i] == x;
      var rest := b[..i] + b[i + 1..];
      assert b == b[..i] + [x] + b[i + 1..];
      assert multiset(a) == multiset(init) + multiset{x};
      assert multiset(b) == multiset(b[..i]) + multiset{x} + multiset(b[i + 1..]);
      assert multiset(rest) == multiset(b[..i]) + multiset(b[i + 1..]);
      assert multiset(init) == multiset(a) - multiset{x};
      assert multiset(rest) == multiset(b) - multiset{x};
      TotalValuePermutation(init, rest);
      TotalValueConcat(b[..i] + [x], b[i + 1..]);
      TotalValueConcat(b[..i], [x]);
      TotalValueConcat(b[..i], b[i + 1..]);
      assert TotalValue([x]) == PieceValue(x) by {
        assert [x][..0] == [];
      }
    }
  }

  /** The `grouped` reduce: the accumulator object gains one count per piece. */
  method GroupCounts(pieces: seq<string>) returns (grouped: map<string, nat>)
    ensures grouped.Keys == set i | 0 <= i < |pieces| :: pieces[i]
    ensures forall x :: x in grouped ==> grouped[x] == multiset(pieces)[x]
  {
    grouped := map[];
    var i := 0;
    while i < |pieces|
      invariant 0 <= i <= |pieces|
      invariant grouped.Keys == set j | 0 <= j < i :: pieces[j]
      invariant forall x :: x in grouped ==> grouped[x] == multiset(pieces[..i])[x]
    {
      var piece := pieces[i];
      grouped := grouped[piece := (if piece in grouped then grouped[piece] else 0) + 1];
      assert pieces[..i + 1] == pieces[..i] + [piece];
      i := i + 1;
    }
    assert pieces[..i] == pieces;
  }

  /** The letters in order of first appearance: the order in which the accumulator gains its
      keys. */
  function Distinct(pieces: seq<string>): (keys: seq<string>)
    ensures forall x :: x in keys <==> x in pieces
    ensures forall i, j :: 0 <= i < j < |keys| ==> keys[i] != keys[j]
  {
    if pieces == [] then []
    else
      var init := Distinct(pieces[..|pieces| - 1]);
      var x := pieces[|pieces| - 1];
      assert forall y :: y in pieces <==> y in pieces[..|pieces| - 1] || y == x;
      if x in init then init else init + [x]
  }

  /** Where `x` first appears in `pieces`. */
  function FirstIndex(pieces: seq<string>, x: string): (i: nat)
    requires x in pieces
    ensures i < |pieces| && pieces[i] == x
    ensures forall j :: 0 <= j < i ==> pieces[j] != x
  {
    if pieces[0] == x then 0 else 1 + FirstIndex(pieces[1..], x)
  }

  lemma {:induction false} FirstIndexAppend(init: seq<string>, x: string, y: string)
    requires y in init
    ensures FirstIndex(init + [x], y) == FirstIndex(init, y)
  {
    var i := FirstIndex(init, y);
    var k := FirstIndex(init + [x], y);
    assert (init + [x])[i] == y;
    assert k <= i;
  }

  /** The letters come out in order of first appearance, as the accumulator object gains its
      keys: a letter listed before another first appears before it. */
  lemma {:induction false} DistinctFirstAppearance(pieces: seq<string>)
    ensures forall i, j :: 0 <= i < j < |Distinct(pieces)| ==>
      FirstIndex(pieces, Distinct(pieces)[i]) < FirstIndex(pieces, Distinct(pieces)[j])
  {
    if pieces != [] {
      var init := pieces[..|pieces| - 1];
      var x := pieces[|pieces| - 1];
      assert pieces == init + [x];
      DistinctFirstAppearance(init);
      var keys := Distinct(init);
      forall y | y in keys
        ensures FirstIndex(pieces, y) == FirstIndex(init, y)
      {
        FirstIndexAppend(init, x, y);
      }
      if x !in init {
        assert FirstIndex(pieces, x) == |init|;
        assert Distinct(pieces) == keys + [x];
        forall i, j | 0 <= i < j < |keys + [x]|
          ensures FirstIndex(pieces, (keys + [x])[i]) < FirstIndex(pieces, (keys + [x])[j])
        {
          assert (keys + [x])[i] == keys[i];
          if j < |keys| {
            assert (keys + [x])[j] == keys[j];
          }
        }
      }
    }
  }

  /** The counts of `m` over `keys`, summed. */
  function SumCounts(keys: seq<string>, m: multiset<string>): nat {
    if keys == [] then 0 else SumCounts(keys[..|keys| - 1], m) + m[keys[|keys| - 1]]
  }

  lemma {:induction false} SumCountsAdd(keys: seq<string>, m: multiset<string>, x: string)
    requires forall i, j :: 0 <= i < j < |keys| ==> keys[i] != keys[j]
    ensures SumCounts(keys, m + multiset{x}) == SumCounts(keys, m) + (if x in keys then 1 else 0)
  {
    if keys != [] {
      var init := keys[..|keys| - 1];
      SumCountsAdd(init, m, x);
      assert x in keys <==> x in init || x == keys[|keys| - 1];
      if x == keys[|keys| - 1] {
        assert forall i :: 0 <= i < |init| ==> init[i] == keys[i] && keys[i] != x;
        assert x !in init;
      }
    }
  }

  /** The counts add up to the number of captured pieces. */
  lemma {:induction false} CountsAddUp(pieces: seq<string>)
    ensures SumCounts(Distinct(pieces), multiset(pieces)) == |pieces|
  {
    if pieces != [] {
      var init := pieces[..|pieces| - 1];
      var x := pieces[|pieces| - 1];
      assert pieces == init + [x];
      assert multiset(pieces) == multiset(init) + multiset{x};
      CountsAddUp(init);
      var keys := Distinct(init);
      SumCountsAdd(keys, multiset(init), x);
      if x !in init {
        assert (keys + [x])[..|keys + [x]| - 1] == keys;
        assert multiset(pieces)[x] == 1;
      }
    }
  }

  /** The placeholder when nothing was captured, the pieces with their material total
      otherwise. */
  datatype PanelView = NothingCaptured | Captured(pieces: seq<string>, material: nat)

  function View(pieces: seq<string>): (v: PanelView)
    ensures v.NothingCaptured? <==> pieces == []
    ensures v.Captured? ==> v.pieces == pieces && v.material == TotalValue(pieces) && v.material <= 9 * |pieces|
  {
    TotalValueBounds(pieces);
    if |pieces| == 0 then NothingCaptured else Captured(pieces, TotalValue(pieces))
  }
}
