/**
 * The code editor window's compile/decompile logic (KPU.UI.CodeWindow): the
 * text is compiled one instruction per non-empty line, and instructions are
 * decompiled back into text joined by newlines.
 */
module KpuCodeWindow {
  import opened Common
  import opened Strings
  import opened Instructions
  import opened KpuProcessor

  function Texts(insns: seq<Instruction>): (ts: seq<string>)
    ensures |ts| == |insns|
    ensures forall k :: 0 <= k < |insns| ==> ts[k] == insns[k].text
  {
    if insns == [] then [] else [insns[0].text] + Texts(insns[1..])
  }

  /** The instructions built, and whether every line parsed. */
  datatype Compiled = Compiled(instructions: seq<Instruction>, ok: bool)

  /** The compile loop over the split lines: empty lines are skipped, the first parse error stops it. */
  function CompileLines(parse: Parser, lines: seq<string>): Compiled
  {
    if lines == [] then Compiled([], true)
    else if lines[0] == "" then CompileLines(parse, lines[1..])
    else match NewInstruction(parse, lines[0])
      case Failure(_) => Compiled([], false)
      case Success(i) =>
        var rest := CompileLines(parse, lines[1..]);
        Compiled([i] + rest.instructions, rest.ok)
  }

  /** The text `decompile` builds: each text appended, after a newline unless nothing has been built yet. */
  function DecompileText(insns: seq<Instruction>): string
  {
    if insns == [] then ""
    else
      var acc := DecompileText(insns[..|insns| - 1]);
      (if |acc| > 0 then acc + "\n" else acc) + insns[|insns| - 1].text
  }

  /** Every instruction is what parsing its own text yields, and that text is one non-empty line. */
  predicate Reparsable(parse: Parser, insns: seq<Instruction>)
  {
    forall k :: 0 <= k < |insns| ==>
      insns[k].text != "" && '\n' !in insns[k].text && parse(insns[k].text) == Success(insns[k].attrs)
  }

  // ---------------------------------------------------------------- what compiling yields

  /** When every non-empty line parses, compiling succeeds with one instruction per non-empty line, in order. */
  lemma {:induction false} CompileAllParse(parse: Parser, lines: seq<string>)
    requires forall k :: 0 <= k < |lines| && lines[k] != "" ==> parse(lines[k]).Success?
    ensures CompileLines(parse, lines).ok
    ensures Texts(CompileLines(parse, lines).instructions) == NonEmpty(lines)
  {
    if lines != [] {
      CompileAllParse(parse, lines[1..]);
    }
  }

  /** At the first line that fails to parse, compiling fails, keeping the instructions of the lines before it. */
  lemma {:induction false} CompileStopsAtFirstError(parse: Parser, lines: seq<string>, j: int)
    requires 0 <= j < |lines| && lines[j] != "" && parse(lines[j]).Failure?
    requires forall k :: 0 <= k < j && lines[k] != "" ==> parse(lines[k]).Success?
    ensures !CompileLines(parse, lines).ok
    ensures Texts(CompileLines(parse, lines).instructions) == NonEmpty(lines[..j])
  {
    if j > 0 {
      assert lines[1..][..j - 1] == lines[..j][1..];
      CompileStopsAtFirstError(parse, lines[1..], j - 1);
    } else {
      assert lines[..0] == [];
    }
  }

  /** Compiling succeeds exactly when every non-empty line parses. */
  lemma {:induction false} CompileOkIff(parse: Parser, lines: seq<string>)
    ensures CompileLines(parse, lines).ok <==>
      forall k :: 0 <= k < |lines| && lines[k] != "" ==> parse(lines[k]).Success?
  {
    if lines != [] {
      CompileOkIff(parse, lines[1..]);
      assert forall k :: 0 < k < |lines| ==> lines[k] == lines[1..][k - 1];
    }
  }

  /** Every compiled instruction is one non-empty, newline-free line that parses to it. */
  lemma {:induction false} CompiledAreReparsable(parse: Parser, lines: seq<string>)
    requires forall k :: 0 <= k < |lines| ==> '\n' !in lines[k]
    ensures Reparsable(parse, CompileLines(parse, lines).instructions)
  {
    if lines != [] {
      CompiledAreReparsable(parse, lines[1..]);
    }
  }

  // ---------------------------------------------------------------- decompiling and the round trip

  /** With non-empty texts, the decompiled text is the texts joined by single newlines. */
  lemma {:induction false} DecompileIsJoin(insns: seq<Instruction>)
    requires forall k :: 0 <= k < |insns| ==> insns[k].text != ""
    ensures DecompileText(insns) == Join(Texts(insns), "\n")
  {
    if insns != [] {
      var init := insns[..|insns| - 1];
      var last := insns[|insns| - 1];
      DecompileIsJoin(init);
      assert Texts(insns) == Texts(init) + [last.text];
      if init != [] {
        JoinSnoc(Texts(init), last.text, "\n");
        assert |Join(Texts(init), "\n")| > 0 by {
          JoinStartsWithFirst(Texts(init), "\n");
        }
      } else {
        assert Texts(insns) == [last.text];
      }
    }
  }

  lemma JoinStartsWithFirst(ts: seq<string>, sep: string)
    requires |ts| >= 1
    ensures |Join(ts, sep)| >= |ts[0]|
  {
  }

  /** Compiling a sequence of non-empty instruction texts with one instruction per text. */
  lemma {:induction false} CompileTexts(parse: Parser, insns: seq<Instruction>)
    requires Reparsable(parse, insns)
    ensures CompileLines(parse, Texts(insns)) == Compiled(insns, true)
  {
    if insns != [] {
      assert Texts(insns)[1..] == Texts(insns[1..]);
      CompileTexts(parse, insns[1..]);
      assert [insns[0]] + insns[1..] == insns;
    }
  }

  /** Round trip: compiling the decompiled text rebuilds the same instructions. */
  lemma CompileDecompile(parse: Parser, insns: seq<Instruction>)
    requires Reparsable(parse, insns)
    ensures CompileLines(parse, Split(DecompileText(insns), '\n')) == Compiled(insns, true)
  {
    DecompileIsJoin(insns);
    if insns == [] {
      assert Split("", '\n') == [""];
    } else {
      SplitJoin(Texts(insns), '\n');
      CompileTexts(parse, insns);
    }
  }

  /** Normalisation is idempotent: after a successful compile and decompile, doing both again changes nothing. */
  lemma NormaliseIdempotent(parse: Parser, text: string)
    requires CompileLines(parse, Split(text, '\n')).ok
    ensures var insns := CompileLines(parse, Split(text, '\n')).instructions;
      CompileLines(parse, Split(DecompileText(insns), '\n')) == Compiled(insns, true)
  {
    var insns := CompileLines(parse, Split(text, '\n')).instructions;
    CompiledAreReparsable(parse, Split(text, '\n'));
    CompileDecompile(parse, insns);
  }

  // ---------------------------------------------------------------- the window

  class CodeWindow {
    const processor: Processor
    var instructions: seq<Instruction>
    var compiled: bool
    var loaded: bool
    var text: string

    constructor (processor: Processor)
      ensures this.processor == processor
      ensures instructions == processor.instructions && text == DecompileText(instructions)
      ensures compiled && loaded
    {
      this.processor := processor;
      instructions := [];
      compiled := false;
      loaded := false;
      text := "";
      new;
      Revert();
    }

    /** Reloads the processor's program: a copy of its list, decompiled. */
    method Revert()
      modifies this
      ensures instructions == processor.instructions && text == DecompileText(instructions)
      ensures compiled && loaded
    {
      instructions := processor.instructions;
      Decompile();
      loaded := true;
    }

    method Decompile()
      modifies this`text, this`compiled
      ensures text == DecompileText(instructions) && compiled
    {
      text := "";
      for n := 0 to |instructions|
        invariant text == DecompileText(instructions[..n])
      {
        assert instructions[..n + 1][..n] == instructions[..n];
        if |text| > 0 {
          text := text + "\n";
        }
        text := text + instructions[n].text;
      }
      assert instructions[..|instructions|] == instructions;
      compiled := true;
    }

    /** Rebuilds `instructions` from the text, line by line; false at the first line that does not parse. */
    method Compile(parse: Parser) returns (ok: bool)
      modifies this`instructions, this`loaded
      ensures !loaded
      ensures Compiled(instructions, ok) == CompileLines(parse, Split(text, '\n'))
    {
      instructions := [];
      loaded := false;
      var lines := Split(text, '\n');
      for n := 0 to |lines|
        invariant !loaded
        invariant CompileLines(parse, lines) ==
          var rest := CompileLines(parse, lines[n..]); Compiled(instructions + rest.instructions, rest.ok)
      {
        assert lines[n..][1..] == lines[n + 1..];
        var line := lines[n];
        if |line| == 0 {
          continue;
        }
        var r := NewInstruction(parse, line);
        if r.Failure? {
          return false;
        }
        instructions := instructions + [r.value];
      }
      assert lines[|lines|..] == [];
      return true;
    }

    /** The text area reports an edit: only a different text marks the code dirty. */
    method EditText(newText: string)
      modifies this`text, this`compiled, this`loaded
      ensures text == newText
      ensures newText != old(text) ==> !compiled && !loaded
      ensures newText == old(text) ==> compiled == old(compiled) && loaded == old(loaded)
    {
      if newText != text {
        compiled := false;
        loaded := false;
        text := newText;
      }
    }

    /** The "Compile!" button: compile, and on success normalise the text by decompiling. */
    method PressCompile(parse: Parser)
      modifies this`instructions, this`loaded, this`text, this`compiled
      ensures !loaded
      ensures Compiled(instructions, compiled) == CompileLines(parse, Split(old(text), '\n'))
      ensures compiled ==> text == DecompileText(instructions)
      ensures !compiled ==> text == old(text)
    {
      compiled := Compile(parse);
      if compiled {
        Decompile();
      }
    }

    /** The "Undo" button. */
    method PressUndo()
      modifies this`text, this`compiled
      ensures text == DecompileText(instructions) && compiled
    {
      Decompile();
    }
  }

  /** Pressing "Compile!" twice ends where pressing it once does: the second press changes nothing. */
  method CompileTwice(w: CodeWindow, parse: Parser)
    modifies w
    ensures var once := CompileLines(parse, Split(old(w.text), '\n'));
      once.ok ==> w.compiled && w.instructions == once.instructions && w.text == DecompileText(once.instructions)
  {
    w.PressCompile(parse);
    if w.compiled {
      NormaliseIdempotent(parse, old(w.text));
      w.PressCompile(parse);
    }
  }
}
