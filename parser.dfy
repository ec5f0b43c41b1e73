/**
 * Vedeu::Parser: the output of a command is parsed by the parser its Ruby
 * class selects, and the parsed result joins the composition queue.
 */
module Parsing {
  import opened Common
  import opened Sinks

  /**
   * The output of a command: `nil`, a String, a Hash, an Array, or any other
   * object, which may or may not answer `empty?`.
   */
  datatype CommandOutput =
    | NilOutput
    | Text(s: string)
    | HashOutput(entries: map<string, string>)
    | ArrayOutput(items: seq<string>)
    | OtherOutput(answersEmpty: bool, isEmpty: bool)

  datatype ParseError = ParseError(message: string) | NoMethodError(name: string)

  datatype ParserKind = JSONParser | HashParser | MenuParser

  /** `JSONParser.parse`, `HashParser.parse` and `MenuParser.parse`, which are not part of this model. */
  datatype Parsers<P> = Parsers(json: string -> P, hash: map<string, string> -> P, menu: seq<string> -> P)

  const Message: string := "Cannot process output from command."

  /** `output.nil? || output.empty?`; an object without `empty?` raises NoMethodError. */
  function Blank(output: CommandOutput): (r: Result<bool, ParseError>)
    ensures output.NilOutput? ==> r == Ok(true)
    ensures output.Text? ==> r == Ok(output.s == "")
    ensures output.HashOutput? ==> r == Ok(output.entries == map[])
    ensures output.ArrayOutput? ==> r == Ok(output.items == [])
    ensures output.OtherOutput? ==> r == (if output.answersEmpty then Ok(output.isEmpty) else Err(NoMethodError("empty?")))
  {
    match output
    case NilOutput => Ok(true)
    case Text(s) => Ok(s == "")
    case HashOutput(entries) => Ok(|entries| == 0)
    case ArrayOutput(items) => Ok(|items| == 0)
    case OtherOutput(answersEmpty, isEmpty) => if answersEmpty then Ok(isEmpty) else Err(NoMethodError("empty?"))
  }

  /** `parser`: a String is JSON, then a Hash, then an Array is a menu; anything else raises ParseError. */
  function ParserFor(output: CommandOutput): (r: Result<ParserKind, ParseError>)
    ensures r == Ok(JSONParser) <==> output.Text?
    ensures r == Ok(HashParser) <==> output.HashOutput?
    ensures r == Ok(MenuParser) <==> output.ArrayOutput?
    ensures r.Err? <==> output.NilOutput? || output.OtherOutput?
    ensures r.Err? ==> r.error == ParseError(Message)
  {
    if output.Text? then Ok(JSONParser)
    else if output.HashOutput? then Ok(HashParser)
    else if output.ArrayOutput? then Ok(MenuParser)
    else Err(ParseError(Message))
  }

  /** `parser.parse(output)`. */
  function Parsed<P>(parsers: Parsers<P>, output: CommandOutput): Result<P, ParseError> {
    match ParserFor(output)
    case Err(e) => Err(e)
    case Ok(kind) =>
      match output
      case Text(s) => Ok(parsers.json(s))
      case HashOutput(entries) => Ok(parsers.hash(entries))
      case ArrayOutput(items) => Ok(parsers.menu(items))
  }

  /** Each kind of output reaches its own parser, with the output itself. */
  lemma ParsedDispatches<P>(parsers: Parsers<P>, output: CommandOutput)
    ensures output.Text? ==> Parsed(parsers, output) == Ok(parsers.json(output.s))
    ensures output.HashOutput? ==> Parsed(parsers, output) == Ok(parsers.hash(output.entries))
    ensures output.ArrayOutput? ==> Parsed(parsers, output) == Ok(parsers.menu(output.items))
    ensures output.NilOutput? || output.OtherOutput? ==> Parsed(parsers, output) == Err(ParseError(Message))
  {
  }

  class Parser<P> {
    const parsers: Parsers<P>
    const output: CommandOutput
    var parsedMemo: Option<P>

    /** `Parser.new(output = {})`. */
    constructor (parsers: Parsers<P>, output: CommandOutput := HashOutput(map[]))
      ensures this.parsers == parsers && this.output == output && parsedMemo == None
    {
      this.parsers := parsers;
      this.output := output;
      parsedMemo := None;
    }

    /** `parsed_output`: parsed at the first call and kept; a raising parse keeps nothing. */
    method ParsedOutput() returns (r: Result<P, ParseError>)
      modifies this`parsedMemo
      ensures old(parsedMemo).Some? ==> r == Ok(old(parsedMemo).value) && parsedMemo == old(parsedMemo)
      ensures old(parsedMemo).None? ==> r == Parsed(parsers, output)
      ensures old(parsedMemo).None? && r.Ok? ==> parsedMemo == Some(r.value)
      ensures r.Err? ==> parsedMemo == None
    {
      if parsedMemo.None? {
        var p := Parsed(parsers, output);
        if p.Err? {
          return p;
        }
        parsedMemo := Some(p.value);
      }
      r := Ok(parsedMemo.value);
    }

    /** `parse`: the parsed output, and nothing else, joins the composition queue. */
    method Parse(composition: Sink<P>) returns (r: Result<P, ParseError>)
      modifies this`parsedMemo, composition
      ensures old(parsedMemo).None? ==> r == Parsed(parsers, output)
      ensures old(parsedMemo).Some? ==> r == Ok(old(parsedMemo).value)
      ensures r.Ok? ==> composition.log == old(composition.log) + [r.value] && parsedMemo == Some(r.value)
      ensures r.Err? ==> composition.log == old(composition.log)
    {
      r := ParsedOutput();
      if r.Ok? {
        composition.Write(r.value);
      }
    }

    /** `Parser.parse(output = {})`: `nil` for a `nil` or empty output, with nothing queued. */
    static method ParseOutput(parsers: Parsers<P>, output: CommandOutput, composition: Sink<P>)
      returns (r: Result<Option<P>, ParseError>)
      modifies composition
      ensures Blank(output).Err? ==> r == Err(Blank(output).error) && composition.log == old(composition.log)
      ensures Blank(output) == Ok(true) ==> r == Ok(None) && composition.log == old(composition.log)
      ensures Blank(output) == Ok(false) && Parsed(parsers, output).Err? ==>
                r == Err(Parsed(parsers, output).error) && composition.log == old(composition.log)
      ensures Blank(output) == Ok(false) && Parsed(parsers, output).Ok? ==>
                r == Ok(Some(Parsed(parsers, output).value)) &&
                composition.log == old(composition.log) + [Parsed(parsers, output).value]
    {
      var blank := Blank(output);
      if blank.Err? {
        return Err(blank.error);
      }
      if blank.value {
        return Ok(None);
      }
      var p := new Parser(parsers, output);
      var parsed := p.Parse(composition);
      r := match parsed
        case Ok(v) => Ok(Some(v))
        case Err(e) => Err(e);
    }
  }

  /** A non-empty object that is not a String, Hash or Array is refused with the documented message. */
  method OtherOutputIsRefused<P>(parsers: Parsers<P>, composition: Sink<P>) returns (r: Result<Option<P>, ParseError>)
    modifies composition
    ensures r == Err(ParseError(Message)) && composition.log == old(composition.log)
  {
    r := Parser.ParseOutput(parsers, OtherOutput(true, false), composition);
  }

  /** Parsing twice with one parser queues the same parsed result twice. */
  method ParseTwiceQueuesTheSame<P>(parsers: Parsers<P>, items: seq<string>, composition: Sink<P>)
    returns (a: Result<P, ParseError>, b: Result<P, ParseError>)
    modifies composition
    ensures a == b == Ok(parsers.menu(items))
    ensures composition.log == old(composition.log) + [a.value, a.value]
  {
    var p := new Parser(parsers, ArrayOutput(items));
    a := p.Parse(composition);
    b := p.Parse(composition);
  }
}
