/** What a generated quote document says, abstracted from pdfkit's drawing: an ordered
    sequence of content blocks. Fonts, colours, coordinates, wrapping and automatic page
    flow are not part of this model. */
module Content {

  /** One cell of a table row: text, or a number rendered with `String(n)`. */
  datatype Cell = TextCell(text: string) | NumberCell(value: real)

  datatype Block =
    | Heading(text: string)             // a bold or large heading line
    | Title(text: string)               // a section title bar
    | Line(text: string)                // a line of body text
    | Bullet(text: string)              // a line drawn as "• " followed by the text
    | Row(cells: seq<Cell>)             // a table row, or a label and its amount
    | Link(caption: string, url: string) // a caption continued by a hyperlinked URL
    | NewPage                           // `doc.addPage()`

  /** A bullet per entry, in order: the `list.forEach((line) => doc.text(`• ${line}`))` loops. */
  function Bullets(xs: seq<string>): (r: seq<Block>)
    ensures |r| == |xs|
    ensures forall k :: 0 <= k < |xs| ==> r[k] == Bullet(xs[k])
    ensures forall b :: b in r ==> b.Bullet?
  {
    if xs == [] then [] else Bullets(xs[..|xs| - 1]) + [Bullet(xs[|xs| - 1])]
  }

  /** A plain text line per entry, in order. */
  function Lines(xs: seq<string>): (r: seq<Block>)
    ensures |r| == |xs|
    ensures forall k :: 0 <= k < |xs| ==> r[k] == Line(xs[k])
    ensures forall b :: b in r ==> b.Line?
  {
    if xs == [] then [] else Lines(xs[..|xs| - 1]) + [Line(xs[|xs| - 1])]
  }

  /** A table row carrying a number: only item rows do. */
  predicate IsItemRow(b: Block) {
    b.Row? && exists i :: 0 <= i < |b.cells| && b.cells[i].NumberCell?
  }

  /** A row whose first cell is the given caption. */
  predicate IsLabelled(b: Block, caption: string) {
    b.Row? && |b.cells| > 0 && b.cells[0] == TextCell(caption)
  }

  /** The blocks of `bs` that satisfy `p`, in document order. */
  function Select(bs: seq<Block>, p: Block -> bool): (r: seq<Block>)
    ensures |r| <= |bs|
  {
    if bs == [] then [] else Select(bs[..|bs| - 1], p) + (if p(bs[|bs| - 1]) then [bs[|bs| - 1]] else [])
  }

  /** Selecting from a document made of two parts selects from each part in turn. */
  lemma {:induction false} SelectAppend(a: seq<Block>, b: seq<Block>, p: Block -> bool)
    ensures Select(a + b, p) == Select(a, p) + Select(b, p)
  {
    if b == [] {
      assert a + b == a;
    } else {
      InitAppend(a, b);
      SelectAppend(a, b[..|b| - 1], p);
    }
  }

  lemma InitAppend<T>(a: seq<T>, b: seq<T>)
    requires b != []
    ensures (a + b)[..|a + b| - 1] == a + b[..|b| - 1] && (a + b)[|a + b| - 1] == b[|b| - 1]
  {
  }

  /** Nothing is selected from a part none of whose blocks qualify. */
  lemma {:induction false} SelectNone(bs: seq<Block>, p: Block -> bool)
    requires forall b :: b in bs ==> !p(b)
    ensures Select(bs, p) == []
  {
    if bs != [] {
      InitIn(bs);
      SelectNone(bs[..|bs| - 1], p);
    }
  }

  /** Everything is selected from a part all of whose blocks qualify. */
  lemma {:induction false} SelectAll(bs: seq<Block>, p: Block -> bool)
    requires forall b :: b in bs ==> p(b)
    ensures Select(bs, p) == bs
  {
    if bs != [] {
      var init := bs[..|bs| - 1];
      InitIn(bs);
      SelectAll(init, p);
      assert p(bs[|bs| - 1]);
      InitLast(bs);
    }
  }

  /** The blocks before the last one are blocks of the list. */
  lemma InitIn<T>(s: seq<T>)
    requires s != []
    ensures forall x :: x in s[..|s| - 1] ==> x in s
  {
  }

  /** A non-empty list is the blocks before its last one, then the last one. */
  lemma InitLast<T>(s: seq<T>)
    requires s != []
    ensures s[..|s| - 1] + [s[|s| - 1]] == s
  {
  }

  /** Regrouping appended parts, so a writer's steps line up with the parts of its section. */
  lemma Regroup<T>(a: seq<T>, b: seq<T>, c: seq<T>)
    ensures a + b + c == a + (b + c)
  {
  }

  /** Regrouping a document written in three parts after what was there before. */
  lemma Regroup3<T>(a: seq<T>, b: seq<T>, c: seq<T>, d: seq<T>)
    ensures a + b + c + d == a + (b + c + d)
  {
  }

  /** The document being written: pdfkit's `doc`, seen as the blocks written so far. */
  class PdfDoc {
    var blocks: seq<Block>

    constructor ()
      ensures blocks == []
    {
      blocks := [];
    }

    /** `doc.text(...)` and friends: one more block at the end. */
    method Add(b: Block)
      modifies this
      ensures blocks == old(blocks) + [b]
    {
      blocks := blocks + [b];
    }

    /** `xs.forEach((line) => doc.text(`• ${line}`))`. */
    method AddBullets(xs: seq<string>)
      modifies this
      ensures blocks == old(blocks) + Bullets(xs)
    {
      var i := 0;
      while i < |xs|
        invariant 0 <= i <= |xs|
        invariant blocks == old(blocks) + Bullets(xs[..i])
      {
        assert xs[..i + 1][..i] == xs[..i];
        Add(Bullet(xs[i]));
        i := i + 1;
      }
      assert xs[..|xs|] == xs;
    }

    /** `doc.text(line)` for each entry in turn. */
    method AddLines(xs: seq<string>)
      modifies this
      ensures blocks == old(blocks) + Lines(xs)
    {
      var i := 0;
      while i < |xs|
        invariant 0 <= i <= |xs|
        invariant blocks == old(blocks) + Lines(xs[..i])
      {
        assert xs[..i + 1][..i] == xs[..i];
        Add(Line(xs[i]));
        i := i + 1;
      }
      assert xs[..|xs|] == xs;
    }
  }
}
