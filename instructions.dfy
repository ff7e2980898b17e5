/**
 * KPU instructions, kept opaque: the control-language parser is not part of
 * this model. An instruction is its source text plus the attributes that the
 * parser derives from it; building one may fail with a parse error.
 */
module Instructions {
  import opened Common

  /** The attributes the library and the code window read from an instruction. */
  datatype Attributes = Attributes(
    requiresLevelTrigger: bool,
    requiresLogicOps: bool,
    requiresArithOps: bool,
    imemWords: int,
    usedInputs: set<string>,
    usedOrients: set<string>)

  datatype ParseError = ParseError

  /** The instruction parser, supplied from outside the model. */
  type Parser = string -> Result<Attributes, ParseError>

  datatype Instruction = Instruction(text: string, attrs: Attributes)

  /** The three processor capabilities an instruction may need. */
  datatype Capability = LevelTrigger | LogicOps | ArithOps

  predicate Needs(i: Instruction, c: Capability)
  {
    match c
    case LevelTrigger => i.attrs.requiresLevelTrigger
    case LogicOps => i.attrs.requiresLogicOps
    case ArithOps => i.attrs.requiresArithOps
  }

  /** `new Instruction(text)`: parses, and on success keeps the text verbatim. */
  function NewInstruction(parse: Parser, text: string): (r: Result<Instruction, ParseError>)
    ensures r.Success? <==> parse(text).Success?
    ensures r.Success? ==> r.value.text == text && r.value.attrs == parse(text).value
  {
    match parse(text)
    case Success(a) => Success(Instruction(text, a))
    case Failure(e) => Failure(e)
  }

  const NoAttributes := Attributes(false, false, false, 0, {}, {})

  /** The parser as the repository has it today: it accepts everything and costs 0 words. */
  function StubParse(text: string): Result<Attributes, ParseError>
  {
    Success(NoAttributes)
  }

  lemma StubNeverFails(text: string)
    ensures NewInstruction(StubParse, text) == Success(Instruction(text, NoAttributes))
  {
  }
}
