/** The branch-label scanner. A tree string marks branch sets with text in
    curly braces (`((a{Fg},b){Fg},c{Bg});`); the runner walks the string
    once, left to right, with a flag that says whether it is inside braces
    and an accumulator for the current label, and collects the distinct
    labels in order of first appearance.

    `Scan` is that walk, one character at a time, as a function of the
    prefix read so far; `AllLabels` is its result. `Closed` is an
    independent description of the same labels: split the string at every
    `}`, and the label a `}` closes is the text of its segment after the
    first `{`, without any `{`. `ScanCharacterised` proves that the scanner
    yields exactly `Closed` with repeats removed. */
module Labels {

  // ---------------------------------------------------------------------
  // The scanner as a state machine
  // ---------------------------------------------------------------------

  datatype ScanState = ScanState(curly: bool, pending: string, labels: seq<string>)

  const Start := ScanState(false, "", [])

  /** One iteration of the scanning loop. An opening brace only raises the
      flag (it neither resets nor extends the label); a closing brace lowers
      it, records the label unless already recorded, and clears it; any other
      character extends the label while the flag is up. */
  function Step(s: ScanState, c: char): ScanState {
    if c == '{' then
      s.(curly := true)
    else if c == '}' then
      ScanState(false, "", if s.pending in s.labels then s.labels else s.labels + [s.pending])
    else if s.curly then
      s.(pending := s.pending + [c])
    else
      s
  }

  /** The scanner's state after reading all of `t`. */
  function Scan(t: string): ScanState {
    if t == [] then Start else Step(Scan(t[..|t| - 1]), t[|t| - 1])
  }

  /** The labels the scanner reports for tree string `t`. */
  function AllLabels(t: string): seq<string> {
    Scan(t).labels
  }

  // ---------------------------------------------------------------------
  // An independent description of the labels
  // ---------------------------------------------------------------------

  /** The text after the last `}` of `t` (all of `t` if it has none). */
  function OpenSegment(t: string): (r: string)
    ensures '}' !in r
    ensures forall c :: c in r ==> c in t
  {
    if t == [] then ""
    else if t[|t| - 1] == '}' then ""
    else OpenSegment(t[..|t| - 1]) + [t[|t| - 1]]
  }

  /** `s` without its opening braces. */
  function DropOpen(s: string): (r: string)
    ensures '{' !in r
    ensures forall c :: c in r ==> c in s
  {
    if s == [] then ""
    else (if s[0] == '{' then "" else [s[0]]) + DropOpen(s[1..])
  }

  /** The label held by a segment without `}`: everything after its first
      `{` except further `{`; empty if it has no `{`. */
  function LabelText(seg: string): (r: string)
    ensures '{' !in r
    ensures forall c :: c in r ==> c in seg
  {
    if seg == [] then ""
    else if seg[0] == '{' then DropOpen(seg[1..])
    else LabelText(seg[1..])
  }

  /** The label closed by every `}` of `t`, in order, repeats kept. */
  function Closed(t: string): (r: seq<string>)
    ensures forall i :: 0 <= i < |r| ==> '{' !in r[i] && '}' !in r[i]
  {
    if t == [] then []
    else if t[|t| - 1] == '}' then Closed(t[..|t| - 1]) + [LabelText(OpenSegment(t[..|t| - 1]))]
    else Closed(t[..|t| - 1])
  }

  /** `xs` with every element after its first occurrence removed. */
  function Dedup(xs: seq<string>): (r: seq<string>)
    ensures forall x :: x in r <==> x in xs
  {
    if xs == [] then []
    else
      var d := Dedup(xs[..|xs| - 1]);
      var x := xs[|xs| - 1];
      if x in d then d else d + [x]
  }

  /** The position of the first occurrence of `x` in `xs`. */
  function FirstIndex(xs: seq<string>, x: string): (r: nat)
    requires x in xs
    ensures r < |xs| && xs[r] == x && x !in xs[..r]
  {
    if xs[0] == x then 0 else assert x in xs[1..]; 1 + FirstIndex(xs[1..], x)
  }

  // ---------------------------------------------------------------------
  // Facts about the pieces
  // ---------------------------------------------------------------------

  lemma {:induction false} DropOpenSnoc(s: string, c: char)
    ensures DropOpen(s + [c]) == DropOpen(s) + (if c == '{' then "" else [c])
  {
    if s == [] {
      assert DropOpen([c]) == (if c == '{' then "" else [c]) + DropOpen([]);
    } else {
      var head := if s[0] == '{' then "" else [s[0]];
      var tail := if c == '{' then "" else [c];
      assert (s + [c])[0] == s[0] && (s + [c])[1..] == s[1..] + [c];
      calc {
        DropOpen(s + [c]);
        head + DropOpen(s[1..] + [c]);
        { DropOpenSnoc(s[1..], c); }
        head + (DropOpen(s[1..]) + tail);
        (head + DropOpen(s[1..])) + tail;
        DropOpen(s) + tail;
      }
    }
  }

  /** Appending a character to a segment extends its label exactly when the
      segment is already inside braces and the character is not `{`. */
  lemma {:induction false} LabelTextSnoc(seg: string, c: char)
    ensures LabelText(seg + [c]) ==
      if '{' in seg && c != '{' then LabelText(seg) + [c] else LabelText(seg)
  {
    if seg == [] {
      assert [c][1..] == [];
    } else {
      assert (seg + [c])[0] == seg[0] && (seg + [c])[1..] == seg[1..] + [c];
      if seg[0] == '{' {
        DropOpenSnoc(seg[1..], c);
      } else {
        assert '{' in seg <==> '{' in seg[1..] by {
          assert seg == [seg[0]] + seg[1..];
        }
        LabelTextSnoc(seg[1..], c);
      }
    }
  }

  /** The scanner's whole state, described without the loop: the flag says
      whether the open segment has a `{`, the accumulator holds the open
      segment's label text, and the list is `Closed` without repeats. */
  lemma {:induction false} ScanCharacterised(t: string)
    ensures Scan(t) == ScanState('{' in OpenSegment(t), LabelText(OpenSegment(t)), Dedup(Closed(t)))
  {
    if t != [] {
      var p, c := t[..|t| - 1], t[|t| - 1];
      ScanCharacterised(p);
      if c == '}' {
        var x := LabelText(OpenSegment(p));
        assert (Closed(p) + [x])[..|Closed(p)|] == Closed(p);
      } else if c == '{' {
        LabelTextSnoc(OpenSegment(p), c);
      } else {
        LabelTextSnoc(OpenSegment(p), c);
      }
    }
  }

  lemma {:induction false} DedupNoDuplicates(xs: seq<string>)
    ensures forall i, j :: 0 <= i < j < |Dedup(xs)| ==> Dedup(xs)[i] != Dedup(xs)[j]
  {
    if xs != [] {
      DedupNoDuplicates(xs[..|xs| - 1]);
    }
  }

  /** The first occurrence is the only position holding `x` with no `x`
      before it. */
  lemma {:induction false} FirstIndexUnique(xs: seq<string>, x: string, k: nat)
    requires k < |xs| && xs[k] == x && x !in xs[..k]
    ensures FirstIndex(xs, x) == k
  {
    if k > 0 {
      assert xs[0] in xs[..k];
      assert xs[1..][k - 1] == x;
      assert xs[1..][..k - 1] == xs[..k][1..];
      FirstIndexUnique(xs[1..], x, k - 1);
    }
  }

  lemma FirstIndexSnoc(xs: seq<string>, y: string, x: string)
    requires x in xs
    ensures FirstIndex(xs + [y], x) == FirstIndex(xs, x)
  {
    var j := FirstIndex(xs, x);
    assert (xs + [y])[..j] == xs[..j];
    FirstIndexUnique(xs + [y], x, j);
  }

  /** Dedup keeps elements in the order of their first occurrence. */
  lemma {:induction false} DedupFirstAppearance(xs: seq<string>)
    ensures forall i, j :: 0 <= i < j < |Dedup(xs)| ==>
      FirstIndex(xs, Dedup(xs)[i]) < FirstIndex(xs, Dedup(xs)[j])
  {
    if xs != [] {
      var p, y := xs[..|xs| - 1], xs[|xs| - 1];
      assert xs == p + [y];
      DedupFirstAppearance(p);
      var d := Dedup(p);
      forall i, j | 0 <= i < j < |Dedup(xs)|
        ensures FirstIndex(xs, Dedup(xs)[i]) < FirstIndex(xs, Dedup(xs)[j])
      {
        FirstIndexSnoc(p, y, d[i]);
        if j < |d| {
          FirstIndexSnoc(p, y, d[j]);
        } else {
          assert Dedup(xs)[j] == y && y !in p;
          assert y !in xs[..|p|];
        }
      }
    }
  }

  lemma {:induction false} ClosedIgnoresUnclosedTail(t: string, u: string)
    requires '}' !in u
    ensures Closed(t + u) == Closed(t)
  {
    if u != [] {
      var w := u[..|u| - 1];
      assert (t + u)[..|t + u| - 1] == t + w;
      assert (t + u)[|t + u| - 1] == u[|u| - 1];
      assert u[|u| - 1] in u;
      assert '}' !in w by {
        assert forall c :: c in w ==> c in u;
      }
      ClosedIgnoresUnclosedTail(t, w);
    } else {
      assert t + u == t;
    }
  }

  // ---------------------------------------------------------------------
  // What the scanner promises
  // ---------------------------------------------------------------------

  /** Each label is reported once. */
  lemma LabelsDistinct(t: string)
    ensures forall i, j :: 0 <= i < j < |AllLabels(t)| ==> AllLabels(t)[i] != AllLabels(t)[j]
  {
    ScanCharacterised(t);
    DedupNoDuplicates(Closed(t));
  }

  /** The reported labels are exactly the texts some `}` closes. */
  lemma LabelsAreClosedTexts(t: string)
    ensures forall x :: x in AllLabels(t) <==> x in Closed(t)
  {
    ScanCharacterised(t);
  }

  /** Labels are reported in order of their first appearance in the tree. */
  lemma LabelsInFirstAppearanceOrder(t: string)
    ensures forall i, j :: 0 <= i < j < |AllLabels(t)| ==>
      AllLabels(t)[i] in Closed(t) && AllLabels(t)[j] in Closed(t) &&
      FirstIndex(Closed(t), AllLabels(t)[i]) < FirstIndex(Closed(t), AllLabels(t)[j])
  {
    ScanCharacterised(t);
    DedupFirstAppearance(Closed(t));
    forall i | 0 <= i < |AllLabels(t)| ensures AllLabels(t)[i] in Closed(t) {
      assert AllLabels(t)[i] in Dedup(Closed(t));
    }
  }

  /** No label holds a brace. */
  lemma LabelsHaveNoBraces(t: string)
    ensures forall i :: 0 <= i < |AllLabels(t)| ==> '{' !in AllLabels(t)[i] && '}' !in AllLabels(t)[i]
  {
    ScanCharacterised(t);
    forall i | 0 <= i < |AllLabels(t)|
      ensures '{' !in AllLabels(t)[i] && '}' !in AllLabels(t)[i]
    {
      var x := AllLabels(t)[i];
      assert x in Closed(t);
    }
  }

  /** An unterminated `{...` (any tail without `}`) adds no label. */
  lemma UnclosedTailAddsNothing(t: string, u: string)
    requires '}' !in u
    ensures AllLabels(t + u) == AllLabels(t)
  {
    ScanCharacterised(t);
    ScanCharacterised(t + u);
    ClosedIgnoresUnclosedTail(t, u);
  }

  /** `{A}x{B}y{A}` yields `[A, B]`. */
  lemma RepeatedLabelReportedOnce()
    ensures AllLabels("{A}x{B}y{A}") == ["A", "B"]
  {
    var t := "{A}x{B}y{A}";
    assert t[..1][..0] == t[..0];
    assert Scan(t[..1]) == ScanState(true, "", []);
    assert t[..2][..1] == t[..1];
    assert Scan(t[..2]) == ScanState(true, "A", []);
    assert t[..3][..2] == t[..2];
    assert Scan(t[..3]) == ScanState(false, "", ["A"]);
    assert t[..4][..3] == t[..3];
    assert Scan(t[..4]) == ScanState(false, "", ["A"]);
    assert t[..5][..4] == t[..4];
    assert Scan(t[..5]) == ScanState(true, "", ["A"]);
    assert t[..6][..5] == t[..5];
    assert Scan(t[..6]) == ScanState(true, "B", ["A"]);
    assert t[..7][..6] == t[..6];
    assert Scan(t[..7]) == ScanState(false, "", ["A", "B"]);
    assert t[..8][..7] == t[..7];
    assert Scan(t[..8]) == ScanState(false, "", ["A", "B"]);
    assert t[..9][..8] == t[..8];
    assert Scan(t[..9]) == ScanState(true, "", ["A", "B"]);
    assert t[..10][..9] == t[..9];
    assert Scan(t[..10]) == ScanState(true, "A", ["A", "B"]);
    assert t[..11][..10] == t[..10];
    assert t[..11] == t;
  }
}
