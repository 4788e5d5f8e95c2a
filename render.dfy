/** Rendering an assistant reply's content into the text shown after "Agent: ".

    A reply's content is either a plain string or a list of parts.  Each part is
    a dictionary that carries a "text" entry, a bare string, or anything else
    (tool-call metadata, dictionaries without "text", other values).  Only the
    first two contribute to the displayed text; everything else is hidden.
 */
module Render {

  /** One element of a list-valued content. */
  datatype Part =
    | TextDict(text: string)   // a dict that has a "text" key
    | Str(value: string)       // a bare string element
    | Other                    // any other element: dropped

  /** The content of a message. */
  datatype Content =
    | PlainText(text: string)
    | Parts(parts: seq<Part>)
    | Unrecognised             // content that is neither a string nor a list

  /** What one part adds to the displayed text. */
  function PartText(p: Part): (t: string)
  {
    match p
    case TextDict(t) => t
    case Str(s) => s
    case Other => ""
  }

  /** True of the parts that carry text: a dict with "text" or a bare string. */
  predicate CarriesText(p: Part)
  {
    p.TextDict? || p.Str?
  }

  /** The rendering of a list of parts: each part's text, left to right. */
  function RenderParts(ps: seq<Part>): (r: string)
  {
    if ps == [] then "" else PartText(ps[0]) + RenderParts(ps[1..])
  }

  /** The displayed text of a content. */
  function RenderContent(c: Content): (r: string)
  {
    match c
    case PlainText(s) => s
    case Parts(ps) => RenderParts(ps)
    case Unrecognised => ""
  }

  // ---------------------------------------------------------------------------
  // An independent description: select the text-carrying parts, take their
  // payloads, and join them.

  /** The payloads of the text-carrying parts, in their original order. */
  function Texts(ps: seq<Part>): (ts: seq<string>)
  {
    if ps == [] then []
    else if CarriesText(ps[0]) then [PartText(ps[0])] + Texts(ps[1..])
    else Texts(ps[1..])
  }

  /** The concatenation of a sequence of strings. */
  function Concat(ss: seq<string>): (r: string)
  {
    if ss == [] then "" else ss[0] + Concat(ss[1..])
  }

  /** Rendering a list is joining the payloads of its text-carrying parts. */
  lemma {:induction false} RenderPartsIsConcatOfTexts(ps: seq<Part>)
    ensures RenderParts(ps) == Concat(Texts(ps))
  {
    if ps != [] {
      RenderPartsIsConcatOfTexts(ps[1..]);
      if !CarriesText(ps[0]) {
        assert PartText(ps[0]) == "";
        assert RenderParts(ps) == RenderParts(ps[1..]);
      }
    }
  }

  /** Worked examples: two "text" dicts join in order, a plain string is shown
      as is, and a tool-call part between text parts is hidden. */
  lemma RenderExamples()
    ensures RenderContent(Parts([TextDict("A"), TextDict("B")])) == "AB"
    ensures RenderContent(PlainText("C")) == "C"
    ensures RenderContent(Parts([TextDict("A"), Other, Str("B")])) == "AB"
  {
    var ab := [TextDict("A"), TextDict("B")];
    assert ab[1..] == [TextDict("B")] && ab[1..][1..] == [];
    var aob := [TextDict("A"), Other, Str("B")];
    assert aob[1..] == [Other, Str("B")] && aob[1..][1..] == [Str("B")] && aob[1..][1..][1..] == [];
  }

  // ---------------------------------------------------------------------------
  // Properties of the rendering.

  /** Plain-string content is shown exactly as it is. */
  lemma PlainTextRendersAsIs(s: string)
    ensures RenderContent(PlainText(s)) == s
  {
  }

  /** An empty list, and content that is neither a string nor a list, show nothing. */
  lemma EmptyAndUnrecognisedRenderEmpty()
    ensures RenderContent(Parts([])) == ""
    ensures RenderContent(Unrecognised) == ""
  {
  }

  /** Rendering distributes over list concatenation. */
  lemma {:induction false} RenderPartsAppend(a: seq<Part>, b: seq<Part>)
    ensures RenderParts(a + b) == RenderParts(a) + RenderParts(b)
  {
    if a == [] {
      assert a + b == b;
    } else {
      assert (a + b)[0] == a[0];
      assert (a + b)[1..] == a[1..] + b;
      RenderPartsAppend(a[1..], b);
    }
  }

  /** A single part renders as its own text. */
  lemma RenderSingle(p: Part)
    ensures RenderParts([p]) == PartText(p)
  {
    assert [p][1..] == [];
  }

  /** A part that carries no text (such as tool-call metadata) may be inserted
      anywhere without changing what is shown. */
  lemma OtherPartAddsNothing(a: seq<Part>, b: seq<Part>)
    ensures RenderParts(a + [Other] + b) == RenderParts(a + b)
  {
    RenderPartsAppend(a + [Other], b);
    RenderPartsAppend(a, [Other]);
    RenderSingle(Other);
    RenderPartsAppend(a, b);
  }

  /** A list renders to the empty string exactly when no part contributes text. */
  lemma {:induction false} RenderPartsEmptyIff(ps: seq<Part>)
    ensures RenderParts(ps) == "" <==> forall i :: 0 <= i < |ps| ==> PartText(ps[i]) == ""
  {
    if ps != [] {
      RenderPartsEmptyIff(ps[1..]);
      assert forall i :: 1 <= i < |ps| ==> ps[i] == ps[1..][i - 1];
      if RenderParts(ps) == "" {
        assert |PartText(ps[0]) + RenderParts(ps[1..])| == 0;
      }
    }
  }

  /** The rendering loop: plain text is taken whole; a list is walked part by
      part, appending the text of each dict with "text" and of each bare
      string; anything else leaves the text empty. */
  method RenderReply(content: Content) returns (finalText: string)
    ensures finalText == RenderContent(content)
  {
    finalText := "";
    match content
    case PlainText(s) =>
      finalText := s;
    case Parts(ps) =>
      for i := 0 to |ps|
        invariant finalText == RenderParts(ps[..i])
      {
        RenderPartsAppend(ps[..i], [ps[i]]);
        RenderSingle(ps[i]);
        assert ps[..i + 1] == ps[..i] + [ps[i]];
        var part := ps[i];
        if part.TextDict? {
          finalText := finalText + part.text;
        } else if part.Str? {
          finalText := finalText + part.value;
        }
      }
      assert ps[..|ps|] == ps;
    case Unrecognised =>
  }
}
