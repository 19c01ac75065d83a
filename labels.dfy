/**
 * `resolveLabels`: flattening a deployment's labels into the text of the
 * Labels column, one `key: value` line per slot that is not `undefined`.
 */
module Labels {
  import opened Records

  /** `label?.key`: a `null` slot has no key. */
  function KeyOf(slot: LabelSlot): Field {
    match slot
    case Label(k, _) => k
    case _ => Absent
  }

  /** `label?.value`. */
  function ValueOf(slot: LabelSlot): Field {
    match slot
    case Label(_, v) => v
    case _ => Absent
  }

  /** The line appended for a slot that passes the `!== undefined` test. */
  function Line(slot: LabelSlot): string {
    FieldText(KeyOf(slot)) + ": " + FieldText(ValueOf(slot)) + "\n"
  }

  /** What one slot adds to the text. */
  function Piece(slot: LabelSlot): string {
    if slot == Undefined then "" else Line(slot)
  }

  /** The flattened label text: each slot's piece, in input order. */
  function LabelText(raw: seq<LabelSlot>): string {
    if raw == [] then "" else Piece(raw[0]) + LabelText(raw[1..])
  }

  /** The loop of `resolveLabels`, with its string accumulator. */
  method ResolveLabels(rawLabels: seq<LabelSlot>) returns (labels: string)
    ensures labels == LabelText(rawLabels)
  {
    labels := "";
    for i := 0 to |rawLabels|
      invariant labels == LabelText(rawLabels[..i])
    {
      var entry := rawLabels[i];
      if entry != Undefined {
        labels := labels + (FieldText(KeyOf(entry)) + ": " + FieldText(ValueOf(entry)) + "\n");
      }
      assert rawLabels[..i + 1] == rawLabels[..i] + [entry];
      LabelTextAppend(rawLabels[..i], [entry]);
      LabelTextSingle(entry);
    }
    assert rawLabels[..|rawLabels|] == rawLabels;
  }

  // ---- a second formulation: filter, then one line per slot ---------

  /** The slots that are not `undefined`, in input order. */
  function DefinedSlots(raw: seq<LabelSlot>): (kept: seq<LabelSlot>)
    ensures forall i :: 0 <= i < |kept| ==> kept[i] != Undefined
    ensures multiset(kept) == multiset(raw)[Undefined := 0]
  {
    if raw == [] then []
    else
      assert raw == [raw[0]] + raw[1..];
      (if raw[0] == Undefined then [] else [raw[0]]) + DefinedSlots(raw[1..])
  }

  function LinesOf(slots: seq<LabelSlot>): (lines: seq<string>)
    ensures |lines| == |slots|
    ensures forall i :: 0 <= i < |slots| ==> lines[i] == Line(slots[i])
  {
    if slots == [] then [] else [Line(slots[0])] + LinesOf(slots[1..])
  }

  function Concat(lines: seq<string>): string {
    if lines == [] then "" else lines[0] + Concat(lines[1..])
  }

  // ---- properties --------------------------------------------------------

  /** Flattening distributes over concatenation of label arrays. */
  lemma {:induction false} LabelTextAppend(a: seq<LabelSlot>, b: seq<LabelSlot>)
    ensures LabelText(a + b) == LabelText(a) + LabelText(b)
  {
    if a == [] {
      assert a + b == b;
    } else {
      assert (a + b)[0] == a[0];
      assert (a + b)[1..] == a[1..] + b;
      LabelTextAppend(a[1..], b);
    }
  }

  /** Only `undefined` slots are skipped: an array of them gives the empty text, like the empty array. */
  lemma {:induction false} LabelTextAllUndefined(raw: seq<LabelSlot>)
    requires forall i :: 0 <= i < |raw| ==> raw[i] == Undefined
    ensures LabelText(raw) == ""
  {
    if raw != [] {
      LabelTextAllUndefined(raw[1..]);
    }
  }

  /** A single slot gives its own line, or nothing when it is `undefined`. */
  lemma LabelTextSingle(slot: LabelSlot)
    ensures LabelText([slot]) == Piece(slot)
  {
    assert [slot][1..] == [];
  }

  /**
   * A `null` slot, or a label with a missing or `null` key or value, still
   * produces a line, with the literal text `undefined` or `null` in its place.
   */
  lemma LineQuirks(k: string, v: string)
    ensures LabelText([NullLabel]) == "undefined" + ": " + "undefined" + "\n"
    ensures LabelText([Label(Absent, Text(v))]) == "undefined" + ": " + v + "\n"
    ensures LabelText([Label(Text(k), Absent)]) == k + ": " + "undefined" + "\n"
    ensures LabelText([Label(Null, Null)]) == "null" + ": " + "null" + "\n"
  {
    LabelTextSingle(NullLabel);
    LabelTextSingle(Label(Absent, Text(v)));
    LabelTextSingle(Label(Text(k), Absent));
    LabelTextSingle(Label(Null, Null));
  }

  lemma {:induction false} LinesOfAppend(a: seq<LabelSlot>, b: seq<LabelSlot>)
    ensures LinesOf(a + b) == LinesOf(a) + LinesOf(b)
  {
    assert |LinesOf(a + b)| == |LinesOf(a) + LinesOf(b)|;
    forall i | 0 <= i < |a + b|
      ensures LinesOf(a + b)[i] == (LinesOf(a) + LinesOf(b))[i]
    {
      if i < |a| {
        assert (a + b)[i] == a[i];
      } else {
        assert (a + b)[i] == b[i - |a|];
      }
    }
  }

  /**
   * The text is the concatenation, in input order, of exactly one
   * `key: value` line per slot that is not `undefined`.
   */
  lemma {:induction false} LabelTextIsLinesOfDefinedSlots(raw: seq<LabelSlot>)
    ensures LabelText(raw) == Concat(LinesOf(DefinedSlots(raw)))
  {
    if raw != [] {
      var rest := raw[1..];
      LabelTextIsLinesOfDefinedSlots(rest);
      if raw[0] != Undefined {
        LinesOfAppend([raw[0]], DefinedSlots(rest));
        assert LinesOf(DefinedSlots(raw)) == [Line(raw[0])] + LinesOf(DefinedSlots(rest));
      } else {
        assert DefinedSlots(raw) == DefinedSlots(rest);
      }
    }
  }
}
