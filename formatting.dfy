/** The display form of one thinking step: a labelled header and the thought
    text inside a box drawn with line characters. */
module Formatting {
  import opened Values
  import opened ThoughtRecords

  /** The three labels a step can carry. */
  datatype Kind = Revision | Branch | Plain

  const RevisionLabel: string := "\U{1F504} Revision"
  const BranchLabel: string := "\U{1F33F} Branch"
  const ThoughtLabel: string := "\U{1F4AD} Thought"

  const Horizontal: char := '\U{2500}'
  const Vertical: char := '\U{2502}'

  function Label(k: Kind): string
  {
    match k
    case Revision => RevisionLabel
    case Branch => BranchLabel
    case Plain => ThoughtLabel
  }

  /** Python truthiness of an optional boolean. */
  predicate IsSet(o: Option<bool>)
  {
    o == Some(true)
  }

  /** A revision is labelled as such even when it also names a branch point. */
  function KindOf(t: ThoughtData): (k: Kind)
    ensures k == Revision <==> IsSet(t.isRevision)
    ensures k == Branch <==> !IsSet(t.isRevision) && NamesBranchPoint(t)
    ensures k == Plain <==> !IsSet(t.isRevision) && !NamesBranchPoint(t)
  {
    if IsSet(t.isRevision) then Revision
    else if NamesBranchPoint(t) then Branch
    else Plain
  }

  /** How an f-string shows an optional field: `None` when it is absent. */
  function ShowInt(o: Option<int>): string
  {
    if o.Some? then IntToString(o.value) else "None"
  }

  function ShowStr(o: Option<string>): string
  {
    if o.Some? then o.value else "None"
  }

  /** The parenthesised note after the step numbers. */
  function Context(t: ThoughtData): string
  {
    match KindOf(t)
    case Revision => " (revising thought " + ShowInt(t.revisesThought) + ")"
    case Branch => " (from thought " + ShowInt(t.branchFromThought) + ", ID: " + ShowStr(t.branchId) + ")"
    case Plain => ""
  }

  /** The label, a space, `number/total` in decimal, and the context note. */
  function Header(t: ThoughtData): string
  {
    Label(KindOf(t)) + " " + IntToString(t.thoughtNumber) + "/" + IntToString(t.totalThoughts) + Context(t)
  }

  /** The note is empty exactly for a plain step; otherwise it is
      parenthesised after a space, and a branch note ends with the branch
      identifier. */
  lemma ContextShape(t: ThoughtData)
    ensures var c := Context(t);
      && (c == "" <==> KindOf(t) == Plain)
      && (c != "" ==> |c| >= 3 && c[..2] == " (" && c[|c| - 1] == ')')
      && (KindOf(t) == Branch ==>
            var id := ShowStr(t.branchId);
            |c| >= |id| + 3 && c[|c| - 1 - |id|..|c| - 1] == id)
  {
  }

  /** The header is the label, a space, the step number, a slash, the total
      and the context note, with nothing in between. */
  lemma HeaderLayout(t: ThoughtData)
    ensures var h, tag, num := Header(t), Label(KindOf(t)), IntToString(t.thoughtNumber);
      && |h| == |tag| + 2 + |num| + |IntToString(t.totalThoughts)| + |Context(t)|
      && h[..|tag|] == tag && h[|tag|] == ' '
      && h[|tag| + 1..|tag| + 1 + |num|] == num && h[|tag| + 1 + |num|] == '/'
      && h[|tag| + 2 + |num|..|h| - |Context(t)|] == IntToString(t.totalThoughts)
      && h[|h| - |Context(t)|..] == Context(t)
  {
    HeaderPieces(Label(KindOf(t)), IntToString(t.thoughtNumber), IntToString(t.totalThoughts), Context(t));
  }

  lemma HeaderPieces(tag: string, num: string, total: string, context: string)
    ensures var h := tag + " " + num + "/" + total + context;
      && |h| == |tag| + 2 + |num| + |total| + |context|
      && h[..|tag|] == tag && h[|tag|] == ' '
      && h[|tag| + 1..|tag| + 1 + |num|] == num && h[|tag| + 1 + |num|] == '/'
      && h[|tag| + 2 + |num|..|h| - |context|] == total
      && h[|h| - |context|..] == context
  {
    var h := tag + " " + num + "/" + total + context;
    PieceAt(tag + " ", num, "/" + total + context);
    PieceAt(tag + " " + num + "/", total, context);
  }

  /** `n` copies of `c` (Python's `c * n`). */
  function Repeat(c: char, n: nat): (r: string)
    ensures |r| == n
    ensures forall k :: 0 <= k < n ==> r[k] == c
  {
    if n == 0 then "" else Repeat(c, n - 1) + [c]
  }

  /** Python's `s.ljust(width)`: `s` padded on the right with spaces up to
      `width` characters, or `s` itself when it is already that long. */
  function LeftJustify(s: string, width: int): (r: string)
    ensures |r| == if |s| < width then width else |s|
    ensures r[..|s|] == s
    ensures forall k :: |s| <= k < |r| ==> r[k] == ' '
  {
    if |s| < width then s + Repeat(' ', width - |s|) else s
  }

  /** The length of the horizontal rule: four more than the longer of the
      header and the thought. */
  function BorderLength(t: ThoughtData): (n: nat)
    ensures n >= |Header(t)| + 4 && n >= |t.thought| + 4
    ensures n == |Header(t)| + 4 || n == |t.thought| + 4
  {
    (if |Header(t)| < |t.thought| then |t.thought| else |Header(t)|) + 4
  }

  /** A text row of the box: the text left-justified between two bars. */
  function Row(text: string, borderLength: nat): string
  {
    [Vertical, ' '] + LeftJustify(text, borderLength - 2) + [' ', Vertical]
  }

  /** The five lines of the box, top to bottom. */
  function BoxLines(t: ThoughtData): (lines: seq<string>)
    ensures |lines| == 5
    ensures forall k :: 0 <= k < 5 ==> |lines[k]| == BorderLength(t) + 2
  {
    var n := BorderLength(t);
    var border := Repeat(Horizontal, n);
    [ ['\U{250C}'] + border + ['\U{2510}'],
      Row(Header(t), n),
      ['\U{251C}'] + border + ['\U{2524}'],
      Row(t.thought, n),
      ['\U{2514}'] + border + ['\U{2518}'] ]
  }

  /** `s` holds the five `lines`, each `w - 1` wide and introduced by a line
      break: line `k` follows the break at offset `k` times `w`. */
  predicate LinesAt(s: string, lines: seq<string>, w: nat)
    requires |lines| == 5
  {
    && w >= 1 && |s| == 5 * w
    && s[0] == '\n' && s[1..w] == lines[0]
    && s[w] == '\n' && s[w + 1..2 * w] == lines[1]
    && s[2 * w] == '\n' && s[2 * w + 1..3 * w] == lines[2]
    && s[3 * w] == '\n' && s[3 * w + 1..4 * w] == lines[3]
    && s[4 * w] == '\n' && s[4 * w + 1..5 * w] == lines[4]
  }

  /** The rendered box: its five lines, each introduced by a line break.
      Every line is as wide as the others, so line `k` follows the break at
      `k` times that width plus one. */
  function FormatThought(t: ThoughtData): (s: string)
    ensures LinesAt(s, BoxLines(t), BorderLength(t) + 3)
  {
    var lines := BoxLines(t);
    FiveLines(lines, BorderLength(t) + 3);
    Rendered(lines)
  }

  /** Five lines, each introduced by a line break. */
  function Rendered(lines: seq<string>): string
    requires |lines| == 5
  {
    "\n" + lines[0] + "\n" + lines[1] + "\n" + lines[2] + "\n" + lines[3] + "\n" + lines[4]
  }

  /** Rendering five lines of one width `w - 1` places them at multiples of `w`. */
  lemma FiveLines(lines: seq<string>, w: nat)
    requires |lines| == 5
    requires |lines[0]| + 1 == w && |lines[1]| + 1 == w && |lines[2]| + 1 == w && |lines[3]| + 1 == w && |lines[4]| + 1 == w
    ensures LinesAt(Rendered(lines), lines, w)
  {
    var p0, p1, p2, p3, p4 := "\n" + lines[0], "\n" + lines[1], "\n" + lines[2], "\n" + lines[3], "\n" + lines[4];
    assert Rendered(lines) == p0 + p1 + p2 + p3 + p4;
    PieceAt([], p0, p1 + p2 + p3 + p4);
    PieceAt(p0, p1, p2 + p3 + p4);
    PieceAt(p0 + p1, p2, p3 + p4);
    PieceAt(p0 + p1 + p2, p3, p4);
    PieceAt(p0 + p1 + p2 + p3, p4, []);
    assert p0[1..] == lines[0] && p1[1..] == lines[1] && p2[1..] == lines[2] && p3[1..] == lines[3] && p4[1..] == lines[4];
  }

  /** The middle piece of a concatenation sits right after the first. */
  lemma PieceAt(before: string, piece: string, after: string)
    ensures (before + piece + after)[|before|..|before| + |piece|] == piece
  {
    var s := before + piece + after;
    assert forall i :: 0 <= i < |piece| ==> s[|before| + i] == piece[i];
  }

  /** A text row shows its text after a bar and a space, then only spaces up
      to the closing space and bar, and is the full box width. */
  lemma RowShowsText(text: string, n: nat)
    requires n >= |text| + 4
    ensures var row := Row(text, n);
      && |row| == n + 2
      && row[0] == Vertical && row[1] == ' '
      && row[2..2 + |text|] == text
      && (forall k :: 2 + |text| <= k < n + 2 - 1 ==> row[k] == ' ')
      && row[n + 1] == Vertical
  {
    var padded := LeftJustify(text, n - 2);
    var row := Row(text, n);
    assert row == [Vertical, ' '] + padded + [' ', Vertical];
    assert row[2..2 + |text|] == padded[..|text|];
    forall k | 2 + |text| <= k < n + 2 - 1 ensures row[k] == ' ' {
      if k < n {
        assert row[k] == padded[k - 2];
      }
    }
  }

  /** The header row carries the header and the content row the thought, and
      the top, middle and bottom borders are unbroken horizontal rules. */
  lemma BoxShowsContent(t: ThoughtData)
    ensures var lines, n := BoxLines(t), BorderLength(t);
      && lines[1][2..2 + |Header(t)|] == Header(t)
      && lines[3][2..2 + |t.thought|] == t.thought
      && (forall i, k :: i in {0, 2, 4} && 1 <= k <= n ==> lines[i][k] == Horizontal)
  {
    var n := BorderLength(t);
    RowShowsText(Header(t), n);
    RowShowsText(t.thought, n);
  }

  /** The label opening the header follows the priority revision, then
      branch, then plain thought. */
  lemma LabelPriority(t: ThoughtData)
    ensures t.isRevision == Some(true) ==> Header(t)[..|RevisionLabel|] == RevisionLabel
    ensures t.isRevision != Some(true) && NamesBranchPoint(t) ==>
      Header(t)[..|BranchLabel|] == BranchLabel
    ensures t.isRevision != Some(true) && !NamesBranchPoint(t) ==>
      Header(t)[..|ThoughtLabel|] == ThoughtLabel && Context(t) == ""
  {
  }
}
