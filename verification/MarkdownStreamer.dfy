/** The streamer object: a buffer, how far it has been handed out, and whether a line is
    about to start. */
module MarkdownStreamer {
  import opened Glyphs
  import opened Streaming
  import opened MarkdownRenderer
  import RendererModel

  /** How a piece is drawn in colour: the parser's events, through a fresh renderer, spelled
      out as characters. */
  function Drawn(style: RendererModel.Style, parse: string -> seq<RendererModel.Event>, paint: Line -> string): string -> string {
    piece => paint(RendererModel.Run(style, RendererModel.REST, parse(piece)).output)
  }

  class Streamer {
    const color: bool
    const style: RendererModel.Style
    const parse: string -> seq<RendererModel.Event>
    const paint: Line -> string
    const continuationPrefix: string
    var buffer: string
    var renderedUpTo: nat
    var atLineStart: bool

    predicate Valid()
      reads this
    {
      renderedUpTo <= |buffer|
    }

    function Config(): Streaming.Config
      reads this
    {
      Streaming.Config.Config(color, continuationPrefix, Drawn(style, parse, paint))
    }

    function State(): Streaming.State
      reads this
    {
      Streaming.State.State(buffer, renderedUpTo, atLineStart)
    }

    constructor (color: bool, style: RendererModel.Style, parse: string -> seq<RendererModel.Event>, paint: Line -> string, prefix: string)
      ensures this.color == color && this.style == style && this.parse == parse && this.paint == paint
      ensures continuationPrefix == prefix
      ensures Valid() && State() == START
    {
      this.color, this.style, this.parse, this.paint := color, style, parse, paint;
      continuationPrefix := prefix;
      buffer, renderedUpTo, atLineStart := "", 0, false;
    }

    /** Takes in a delta and hands out the lines that are complete. */
    method PushDelta(delta: string) returns (out: string)
      requires Valid()
      modifies this
      ensures Valid() && (out, State()) == Step(Config(), old(State()), Push(delta))
    {
      ghost var st := State();
      buffer := buffer + delta;
      assert buffer[renderedUpTo..] == st.Pending() + Delta(Push(delta));
      var complete := TakeCompleteLines();
      ghost var taken := renderedUpTo;
      assert complete == Piece(st.Pending(), Push(delta));
      var rendered := Render(complete);
      out := ApplyContinuationPrefix(rendered);
      assert State() == Streaming.State.State(st.buffer + delta, taken, After(st.atLineStart, rendered));
    }

    /** Hands out everything that is left. */
    method FinishText() returns (out: string)
      requires Valid()
      modifies this
      ensures Valid() && (out, State()) == Step(Config(), old(State()), Finish)
    {
      var remaining := buffer[renderedUpTo..];
      renderedUpTo := |buffer|;
      assert buffer + "" == buffer;
      if remaining == "" {
        return "";
      }
      var rendered := Render(remaining);
      out := ApplyContinuationPrefix(rendered);
    }

    method TakeCompleteLines() returns (complete: string)
      requires Valid()
      modifies this`renderedUpTo
      ensures Valid() && complete == CompleteLines(buffer[old(renderedUpTo)..])
      ensures renderedUpTo == old(renderedUpTo) + |complete|
    {
      var pending := buffer[renderedUpTo..];
      var end := |pending|;
      assert pending[..end] == pending;
      while end > 0 && pending[end - 1] != '\n'
        invariant 0 <= end <= |pending|
        invariant CompleteLines(pending[..end]) == CompleteLines(pending)
      {
        assert pending[..end][..end - 1] == pending[..end - 1];
        end := end - 1;
      }
      complete := pending[..end];
      renderedUpTo := renderedUpTo + |complete|;
    }

    method Render(piece: string) returns (rendered: string)
      ensures rendered == Shown(Config(), piece)
    {
      if piece == "" || !color {
        return piece;
      }
      var renderer := new Renderer(style);
      renderer.Push(parse(piece));
      rendered := paint(renderer.output);
    }

    method ApplyContinuationPrefix(rendered: string) returns (out: string)
      requires Valid()
      modifies this`atLineStart
      ensures out == Prefixed(continuationPrefix, old(atLineStart), rendered)
      ensures atLineStart == After(old(atLineStart), rendered)
    {
      if rendered == "" {
        return "";
      }
      if continuationPrefix == "" {
        PrefixedEmpty(atLineStart, rendered);
        atLineStart := rendered[|rendered| - 1] == '\n';
        return rendered;
      }
      ghost var whole, last := Prefixed(continuationPrefix, atLineStart, rendered), After(atLineStart, rendered);
      out := "";
      var rest := rendered;
      while rest != ""
        invariant out + Prefixed(continuationPrefix, atLineStart, rest) == whole
        invariant After(atLineStart, rest) == last
        decreases |rest|
      {
        PrefixedStep(continuationPrefix, out, atLineStart, rest);
        var ch := rest[0];
        var piece := "";
        if atLineStart && ch != '\n' {
          piece := continuationPrefix;
          atLineStart := false;
        }
        out := out + (piece + [ch]);
        if ch == '\n' {
          atLineStart := true;
        }
        rest := rest[1..];
      }
    }
  }
}
