/** `_calculate_diff` of the AI proxy service: turning difflib's opcodes for
    (original, modified) into the `DiffSegment` list sent to the editor, and
    the property the editor relies on: the equal and delete segments spell
    the original text, the equal and insert segments the modified text. */
module Diff {
  import opened Wrappers
  import opened Text
  import opened ApiModels

  /** One entry of `SequenceMatcher.get_opcodes()`: a tag and the spans
      `a[i1:i2]` of the original and `b[j1:j2]` of the modified text. */
  datatype Opcode = Opcode(tag: string, i1: nat, i2: nat, j1: nat, j2: nat)

  /** difflib's matcher, which this model does not implement: the opcodes
      for a pair of texts, or `None` when the computation raises. */
  type Matcher = (string, string) -> Option<seq<Opcode>>

  /** The segments one opcode contributes: equal, delete and insert give one
      segment with their slice; replace gives a delete and then an insert,
      each only when its slice is non-empty; any other tag gives nothing. */
  function SegmentsOf(op: Opcode, original: string, modified: string): (r: seq<DiffSegment>)
    ensures |r| <= 2
    ensures forall k :: 0 <= k < |r| ==> r[k].kind in {EqualKind, DeleteKind, InsertKind}
    ensures op.tag == "replace" ==>
      |r| == (if op.i1 < op.i2 then 1 else 0) + (if op.j1 < op.j2 then 1 else 0)
    ensures op.tag == "equal" ==> r == [DiffSegment(EqualKind, Slice(original, op.i1, op.i2))]
    ensures op.tag == "delete" ==> r == [DiffSegment(DeleteKind, Slice(original, op.i1, op.i2))]
    ensures op.tag == "insert" ==> r == [DiffSegment(InsertKind, Slice(modified, op.j1, op.j2))]
    ensures op.tag == "replace" && |r| == 2 ==> r[0].kind == DeleteKind && r[1].kind == InsertKind
    ensures op.tag == "replace" && |r| == 1 ==> r[0].kind == (if op.i1 < op.i2 then DeleteKind else InsertKind)
    ensures op.tag == "replace" ==> forall k :: 0 <= k < |r| ==>
      r[k].value == if r[k].kind == DeleteKind then Slice(original, op.i1, op.i2) else Slice(modified, op.j1, op.j2)
    ensures op.tag !in {"equal", "delete", "insert", "replace"} ==> r == []
  {
    if op.tag == "equal" then
      [DiffSegment(EqualKind, Slice(original, op.i1, op.i2))]
    else if op.tag == "delete" then
      [DiffSegment(DeleteKind, Slice(original, op.i1, op.i2))]
    else if op.tag == "insert" then
      [DiffSegment(InsertKind, Slice(modified, op.j1, op.j2))]
    else if op.tag == "replace" then
      (if op.i1 < op.i2 then [DiffSegment(DeleteKind, Slice(original, op.i1, op.i2))] else [])
      + (if op.j1 < op.j2 then [DiffSegment(InsertKind, Slice(modified, op.j1, op.j2))] else [])
    else
      []
  }

  /** The segments of a whole opcode list, in opcode order. */
  function SegmentsOfAll(ops: seq<Opcode>, original: string, modified: string): seq<DiffSegment>
  {
    if ops == [] then []
    else SegmentsOfAll(ops[..|ops| - 1], original, modified) + SegmentsOf(ops[|ops| - 1], original, modified)
  }

  /** What `_calculate_diff` returns: the converted opcodes, or a delete of
      the whole original followed by an insert of the whole modified text
      when the matcher raised. */
  function DiffOf(original: string, modified: string, opcodes: Option<seq<Opcode>>): (r: seq<DiffSegment>)
    ensures opcodes.Some? && Tiles(opcodes.value, original, modified) ==>
      OldText(r) == original && NewText(r) == modified
    ensures opcodes.None? ==> r == [DiffSegment(DeleteKind, original), DiffSegment(InsertKind, modified)]
    ensures opcodes.None? ==> OldText(r) == original && NewText(r) == modified
  {
    match opcodes
    case None =>
      var r := [DiffSegment(DeleteKind, original)] + [DiffSegment(InsertKind, modified)];
      TextsOfSingle(DiffSegment(DeleteKind, original));
      TextsOfSingle(DiffSegment(InsertKind, modified));
      TextsOfAppend([DiffSegment(DeleteKind, original)], [DiffSegment(InsertKind, modified)]);
      r
    case Some(ops) =>
      var r := SegmentsOfAll(ops, original, modified);
      assert Tiles(ops, original, modified) ==> OldText(r) == original && NewText(r) == modified by {
        if Tiles(ops, original, modified) {
          Reconstruction(ops, original, modified, |original|, |modified|);
          assert original[..|original|] == original && modified[..|modified|] == modified;
        }
      }
      r
  }

  /** `_calculate_diff(original, modified)`, with the matcher's answer for
      this pair passed in. */
  method CalculateDiff(original: string, modified: string, opcodes: Option<seq<Opcode>>)
    returns (diffs: seq<DiffSegment>)
    ensures diffs == DiffOf(original, modified, opcodes)
  {
    if opcodes.None? {
      return [DiffSegment(DeleteKind, original), DiffSegment(InsertKind, modified)];
    }
    var ops := opcodes.value;
    diffs := [];
    for n := 0 to |ops|
      invariant diffs == SegmentsOfAll(ops[..n], original, modified)
    {
      var op := ops[n];
      if op.tag == "equal" {
        diffs := diffs + [DiffSegment(EqualKind, Slice(original, op.i1, op.i2))];
      } else if op.tag == "delete" {
        diffs := diffs + [DiffSegment(DeleteKind, Slice(original, op.i1, op.i2))];
      } else if op.tag == "insert" {
        diffs := diffs + [DiffSegment(InsertKind, Slice(modified, op.j1, op.j2))];
      } else if op.tag == "replace" {
        if op.i1 < op.i2 {
          diffs := diffs + [DiffSegment(DeleteKind, Slice(original, op.i1, op.i2))];
        }
        if op.j1 < op.j2 {
          diffs := diffs + [DiffSegment(InsertKind, Slice(modified, op.j1, op.j2))];
        }
      }
      assert ops[..n + 1][..n] == ops[..n];
    }
    assert ops[..|ops|] == ops;
  }

  /** The original text a segment list describes: its equal and delete values, in order. */
  function OldText(segs: seq<DiffSegment>): string
  {
    if segs == [] then ""
    else
      var last := segs[|segs| - 1];
      OldText(segs[..|segs| - 1]) + (if last.kind == EqualKind || last.kind == DeleteKind then last.value else "")
  }

  /** The modified text a segment list describes: its equal and insert values, in order. */
  function NewText(segs: seq<DiffSegment>): string
  {
    if segs == [] then ""
    else
      var last := segs[|segs| - 1];
      NewText(segs[..|segs| - 1]) + (if last.kind == EqualKind || last.kind == InsertKind then last.value else "")
  }

  lemma {:induction false} TextsOfAppend(x: seq<DiffSegment>, y: seq<DiffSegment>)
    ensures OldText(x + y) == OldText(x) + OldText(y)
    ensures NewText(x + y) == NewText(x) + NewText(y)
    decreases |y|
  {
    if y == [] {
      assert x + y == x;
    } else {
      var y' := y[..|y| - 1];
      assert (x + y)[..|x + y| - 1] == x + y';
      assert (x + y)[|x + y| - 1] == y[|y| - 1];
      TextsOfAppend(x, y');
    }
  }

  lemma TextsOfSingle(seg: DiffSegment)
    ensures OldText([seg]) == if seg.kind == EqualKind || seg.kind == DeleteKind then seg.value else ""
    ensures NewText([seg]) == if seg.kind == EqualKind || seg.kind == InsertKind then seg.value else ""
  {
    assert [seg][..0] == [];
  }

  /** What difflib promises of `get_opcodes()` for texts `a` and `b`, read
      up to the positions (iEnd, jEnd): the spans are consecutive and start
      at 0, equal spans hold the same text, a delete is empty in `b`, an
      insert is empty in `a`, and every tag is one of the four. */
  ghost predicate TilesUpTo(ops: seq<Opcode>, a: string, b: string, iEnd: nat, jEnd: nat)
  {
    if ops == [] then iEnd == 0 && jEnd == 0
    else
      var op := ops[|ops| - 1];
      && op.i2 == iEnd && op.j2 == jEnd
      && op.i1 <= op.i2 <= |a| && op.j1 <= op.j2 <= |b|
      && op.tag in {"equal", "delete", "insert", "replace"}
      && (op.tag == "equal" ==> a[op.i1..op.i2] == b[op.j1..op.j2])
      && (op.tag == "delete" ==> op.j1 == op.j2)
      && (op.tag == "insert" ==> op.i1 == op.i2)
      && TilesUpTo(ops[..|ops| - 1], a, b, op.i1, op.j1)
  }

  /** The opcodes cover both texts completely. */
  ghost predicate Tiles(ops: seq<Opcode>, a: string, b: string)
  {
    TilesUpTo(ops, a, b, |a|, |b|)
  }

  /** A matcher that keeps difflib's promise on every pair it answers. */
  ghost predicate SoundMatcher(matcher: Matcher)
  {
    forall a, b :: matcher(a, b).Some? ==> Tiles(matcher(a, b).value, a, b)
  }

  /** One opcode's segments spell its slice of each text. */
  lemma OneOpcodeTexts(op: Opcode, a: string, b: string)
    requires op.i1 <= op.i2 <= |a| && op.j1 <= op.j2 <= |b|
    requires op.tag in {"equal", "delete", "insert", "replace"}
    requires op.tag == "equal" ==> a[op.i1..op.i2] == b[op.j1..op.j2]
    requires op.tag == "delete" ==> op.j1 == op.j2
    requires op.tag == "insert" ==> op.i1 == op.i2
    ensures OldText(SegmentsOf(op, a, b)) == a[op.i1..op.i2]
    ensures NewText(SegmentsOf(op, a, b)) == b[op.j1..op.j2]
  {
    var segs := SegmentsOf(op, a, b);
    if |segs| == 1 {
      assert segs == [segs[0]];
      TextsOfSingle(segs[0]);
    } else if |segs| == 2 {
      assert segs == [segs[0]] + [segs[1]];
      TextsOfSingle(segs[0]);
      TextsOfSingle(segs[1]);
      TextsOfAppend([segs[0]], [segs[1]]);
    }
  }

  /** The facts the tiling gives about the last opcode, and the tiling of the rest. */
  lemma TilesLast(ops: seq<Opcode>, a: string, b: string, iEnd: nat, jEnd: nat)
    requires ops != [] && TilesUpTo(ops, a, b, iEnd, jEnd)
    ensures var op := ops[|ops| - 1];
      && op.i2 == iEnd && op.j2 == jEnd
      && op.i1 <= op.i2 <= |a| && op.j1 <= op.j2 <= |b|
      && op.tag in {"equal", "delete", "insert", "replace"}
      && (op.tag == "equal" ==> a[op.i1..op.i2] == b[op.j1..op.j2])
      && (op.tag == "delete" ==> op.j1 == op.j2)
      && (op.tag == "insert" ==> op.i1 == op.i2)
      && TilesUpTo(ops[..|ops| - 1], a, b, op.i1, op.j1)
  {
  }

  lemma PrefixSplit(s: string, i: nat, j: nat)
    requires i <= j <= |s|
    ensures s[..i] + s[i..j] == s[..j]
  {
  }

  /** Converting opcodes that tile both texts loses nothing: the old side
      of the segments is `a[..iEnd]` and the new side is `b[..jEnd]`. */
  lemma {:induction false} Reconstruction(ops: seq<Opcode>, a: string, b: string, iEnd: nat, jEnd: nat)
    requires TilesUpTo(ops, a, b, iEnd, jEnd)
    ensures OldText(SegmentsOfAll(ops, a, b)) == a[..iEnd]
    ensures NewText(SegmentsOfAll(ops, a, b)) == b[..jEnd]
  {
    if ops != [] {
      var init, op := ops[..|ops| - 1], ops[|ops| - 1];
      TilesLast(ops, a, b, iEnd, jEnd);
      Reconstruction(init, a, b, op.i1, op.j1);
      OneOpcodeTexts(op, a, b);
      var front, back := SegmentsOfAll(init, a, b), SegmentsOf(op, a, b);
      assert SegmentsOfAll(ops, a, b) == front + back;
      TextsOfAppend(front, back);
      PrefixSplit(a, op.i1, op.i2);
      PrefixSplit(b, op.j1, op.j2);
    }
  }

  /** A sound matcher's diff of any pair of texts turns the first into the second. */
  lemma DiffReconstructs(original: string, modified: string, matcher: Matcher)
    requires SoundMatcher(matcher)
    ensures OldText(DiffOf(original, modified, matcher(original, modified))) == original
    ensures NewText(DiffOf(original, modified, matcher(original, modified))) == modified
  {
  }
}
