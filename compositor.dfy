/**
 * Vedeu::Compositor: turns an output (lines of streams) into one string per
 * line, each stream preceded by a sequence that blanks its row, and hands
 * the strings to the renderer.
 */
module Composing {
  import opened Common
  import opened RubyString
  import opened Sinks

  /**
   * What the compositor reads from its interface and the encoders it calls,
   * none of which is part of this model: `vx(i)`, `vy(i)` and `width` of
   * the interface's geometry, `Position.set(y, x)` as `position`, and
   * `Directive.enact(stream)` as `enact`.
   */
  datatype Env<-S> = Env(vx: int -> int, vy: int -> int, width: nat, position: (int, int) -> string, enact: S -> string)

  /** The `output` given to `Compositor.arrange`: `nil`, a String, or lines of streams. */
  datatype ArrangeInput<S> = NilOutput | Text(s: string) | Lines(lines: seq<seq<S>>)

  /** What the `output` reader yields: the lines of streams, or the words of a split String. */
  datatype Composable<S> = StreamLines(lines: seq<seq<S>>) | WordLines(words: seq<string>)

  /** A String has no `each_with_index`, so composing a line that is a String raises NoMethodError. */
  datatype ArrangeError = NoMethodError(name: string)

  /** `output.nil? || output.empty?`. */
  predicate Blank<S>(output: ArrangeInput<S>) {
    match output
    case NilOutput => true
    case Text(s) => s == ""
    case Lines(lines) => lines == []
  }

  /** `clear_line(index)`: the position of row `vy(index)` at column `vx(0)`, `width` spaces, the same position again. */
  function ClearLine<S>(env: Env<S>, index: int): string {
    var at := env.position(env.vy(index), env.vx(0));
    at + Spaces(env.width) + at
  }

  /** The line blank is framed by the same position on both sides and holds exactly `width` spaces between them. */
  lemma ClearLineShape<S>(env: Env<S>, index: int)
    ensures var at := env.position(env.vy(index), env.vx(0));
            var r := ClearLine(env, index);
            |r| == 2 * |at| + env.width && r[..|at|] == at && r[|r| - |at|..] == at &&
            forall k :: |at| <= k < |at| + env.width ==> r[k] == ' '
  {
    var at := env.position(env.vy(index), env.vx(0));
    var r := ClearLine(env, index);
    assert r == at + Spaces(env.width) + at;
    assert forall k :: |at| <= k < |at| + env.width ==> r[k] == Spaces(env.width)[k - |at|];
  }

  /** The streams array after the first `n` streams of a line: for each, its line blank, then its enacted text. */
  function StreamParts<S>(env: Env<S>, line: seq<S>, n: nat): seq<string>
    requires n <= |line|
  {
    if n == 0 then [] else StreamParts(env, line, n - 1) + [ClearLine(env, n - 1), env.enact(line[n - 1])]
  }

  /** The string one line composes to. */
  function LineText<S>(env: Env<S>, line: seq<S>): string {
    Concat(StreamParts(env, line, |line|))
  }

  /** The composition of lines: one string per line, in line order. */
  function Composed<S>(env: Env<S>, lines: seq<seq<S>>): (c: seq<string>)
    ensures |c| == |lines|
  {
    seq(|lines|, i requires 0 <= i < |lines| => LineText(env, lines[i]))
  }

  lemma {:induction false} StreamPartsPrefix<S>(env: Env<S>, line: seq<S>, s: S, n: nat)
    requires n <= |line|
    ensures StreamParts(env, line + [s], n) == StreamParts(env, line, n)
    decreases n
  {
    if n > 0 {
      StreamPartsPrefix(env, line, s, n - 1);
      assert (line + [s])[n - 1] == line[n - 1];
    }
  }

  /** One more stream adds its line blank and then its enacted text, after everything before it. */
  lemma LineTextAppend<S>(env: Env<S>, line: seq<S>, s: S)
    ensures LineText(env, line + [s]) == LineText(env, line) + ClearLine(env, |line|) + env.enact(s)
  {
    var before := StreamParts(env, line, |line|);
    StreamPartsPrefix(env, line, s, |line|);
    assert StreamParts(env, line + [s], |line| + 1) == before + [ClearLine(env, |line|)] + [env.enact(s)];
    ConcatAppend(before + [ClearLine(env, |line|)], env.enact(s));
    ConcatAppend(before, ClearLine(env, |line|));
  }

  /** A line of one stream is that stream's line blank followed by its text. */
  lemma LineTextSingle<S>(env: Env<S>, s: S)
    ensures LineText(env, [s]) == ClearLine(env, 0) + env.enact(s)
  {
    LineTextAppend(env, [], s);
    assert [] + [s] == [s];
  }

  /** Lines are composed independently: composing two runs of lines is composing each and putting the results together. */
  lemma ComposedSplits<S>(env: Env<S>, a: seq<seq<S>>, b: seq<seq<S>>)
    ensures Composed(env, a + b) == Composed(env, a) + Composed(env, b)
  {
    var whole := Composed(env, a + b);
    forall i | 0 <= i < |a| + |b| ensures whole[i] == (Composed(env, a) + Composed(env, b))[i] {
      if i < |a| {
        assert (a + b)[i] == a[i];
      } else {
        assert (a + b)[i] == b[i - |a|];
      }
    }
  }

  class Compositor<S> {
    const output: ArrangeInput<S>
    const env: Env<S>

    constructor (output: ArrangeInput<S>, env: Env<S>)
      ensures this.output == output && this.env == env
    {
      this.output := output;
      this.env := env;
    }

    /** `output`: a String is split on whitespace; anything else is used as given. */
    function Composable(): (c: Composable<S>)
      requires !output.NilOutput?
      ensures output.Text? ==> c == WordLines(Split(output.s))
      ensures output.Lines? ==> c == StreamLines(output.lines)
    {
      if output.Text? then WordLines(Split(output.s)) else StreamLines(output.lines)
    }

    /**
     * `composition`: for each line, the streams array collects each stream's
     * line blank and enacted text, is joined into one container entry and is
     * emptied for the next line.
     */
    method Composition(lines: seq<seq<S>>) returns (container: seq<string>)
      ensures container == Composed(env, lines)
    {
      container := [];
      var streams: seq<string> := [];
      for li := 0 to |lines|
        invariant |container| == li && streams == []
        invariant forall i :: 0 <= i < li ==> container[i] == LineText(env, lines[i])
      {
        var line := lines[li];
        for index := 0 to |line|
          invariant streams == StreamParts(env, line, index)
        {
          streams := streams + [ClearLine(env, index)];
          streams := streams + [env.enact(line[index])];
        }
        container := container + [Concat(streams)];
        streams := [];
      }
    }

    /**
     * `arrange`: the composition goes to the renderer. The words of a split
     * String are Strings, which have no `each_with_index`: any word raises,
     * and the renderer is not called.
     */
    method Arrange(renderer: Sink<seq<string>>) returns (r: Result<seq<string>, ArrangeError>)
      requires !output.NilOutput?
      modifies renderer
      ensures output.Lines? ==> r == Ok(Composed(env, output.lines)) && renderer.log == old(renderer.log) + [r.value]
      ensures output.Text? && Split(output.s) == [] ==> r == Ok([]) && renderer.log == old(renderer.log) + [[]]
      ensures output.Text? && Split(output.s) != [] ==>
                r == Err(NoMethodError("each_with_index")) && renderer.log == old(renderer.log)
    {
      match Composable()
      case StreamLines(lines) =>
        var container := Composition(lines);
        renderer.Write(container);
        r := Ok(container);
      case WordLines(words) =>
        if words == [] {
          renderer.Write([]);
          r := Ok([]);
        } else {
          r := Err(NoMethodError("each_with_index"));
        }
    }

    /** `Compositor.arrange(output, interface)`: nothing at all for a `nil` or empty output. */
    static method ArrangeOutput(output: ArrangeInput<S>, env: Env<S>, renderer: Sink<seq<string>>)
      returns (r: Result<Option<seq<string>>, ArrangeError>)
      modifies renderer
      ensures Blank(output) ==> r == Ok(None) && renderer.log == old(renderer.log)
      ensures output.Lines? && output.lines != [] ==>
                r == Ok(Some(Composed(env, output.lines))) && renderer.log == old(renderer.log) + [Composed(env, output.lines)]
      ensures output.Text? && output.s != "" && Split(output.s) == [] ==> r == Ok(Some([])) && renderer.log == old(renderer.log) + [[]]
      ensures output.Text? && Split(output.s) != [] ==> r.Err? && renderer.log == old(renderer.log)
    {
      if Blank(output) {
        r := Ok(None);
      } else {
        var c := new Compositor(output, env);
        var written := c.Arrange(renderer);
        r := match written
          case Ok(container) => Ok(Some(container))
          case Err(e) => Err(e);
      }
    }
  }
}
