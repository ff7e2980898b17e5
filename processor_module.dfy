/** The processor part module (ModuleKpuProcessor): owns the processor and describes its capabilities. */
module ProcessorModule {
  import opened Common
  import opened Strings
  import opened PartStatus
  import opened KpuProcessor

  /** The capability lines: edge triggers always, then each optional feature in a fixed order. */
  function CapabilityLines(hasLevelTrigger: bool, hasLogicOps: bool, hasArithOps: bool): seq<string>
  {
    ["Supports Edge-Triggers"] +
    When(hasLevelTrigger, "Supports Level-Triggers") +
    When(hasLogicOps, "Supports Logical Ops") +
    When(hasArithOps, "Supports Arithmetic Ops")
  }

  /** Each optional line appears exactly when its flag is set; the edge-trigger line always comes first. */
  lemma CapabilityLinesMention(hasLevelTrigger: bool, hasLogicOps: bool, hasArithOps: bool)
    ensures var lines := CapabilityLines(hasLevelTrigger, hasLogicOps, hasArithOps);
      && lines[0] == "Supports Edge-Triggers"
      && |lines| == 1 + (if hasLevelTrigger then 1 else 0) + (if hasLogicOps then 1 else 0) + (if hasArithOps then 1 else 0)
      && ("Supports Level-Triggers" in lines <==> hasLevelTrigger)
      && ("Supports Logical Ops" in lines <==> hasLogicOps)
      && ("Supports Arithmetic Ops" in lines <==> hasArithOps)
  {
  }

  /** No capability line ends in a newline character, so trimming leaves the joined lines. */
  lemma CapabilityInfoIsJoin(hasLevelTrigger: bool, hasLogicOps: bool, hasArithOps: bool, nl: string)
    requires IsNewLine(nl)
    ensures InfoText(CapabilityLines(hasLevelTrigger, hasLogicOps, hasArithOps), nl)
         == Join(CapabilityLines(hasLevelTrigger, hasLogicOps, hasArithOps), nl)
  {
    var lines := CapabilityLines(hasLevelTrigger, hasLogicOps, hasArithOps);
    var last := lines[|lines| - 1];
    assert last in {"Supports Edge-Triggers", "Supports Level-Triggers", "Supports Logical Ops", "Supports Arithmetic Ops"};
    assert last[|last| - 1] == 's';
    assert CharSet(nl) <= {'\n', '\r'};
    InfoTextIsJoin(lines, nl);
  }

  class ModuleKpuProcessor {
    var processor: Processor?
    var hasLevelTrigger: bool
    var hasLogicOps: bool
    var hasArithOps: bool
    var imemWords: int

    /** A module with its configuration fields loaded, before `OnStart`. */
    constructor (hasLevelTrigger: bool, hasLogicOps: bool, hasArithOps: bool, imemWords: int)
      ensures this.hasLevelTrigger == hasLevelTrigger && this.hasLogicOps == hasLogicOps
      ensures this.hasArithOps == hasArithOps && this.imemWords == imemWords
      ensures processor == null
    {
      this.hasLevelTrigger := hasLevelTrigger;
      this.hasLogicOps := hasLogicOps;
      this.hasArithOps := hasArithOps;
      this.imemWords := imemWords;
      processor := null;
    }

    /** A fresh processor with this module's capabilities and an empty program. */
    method OnStart()
      modifies this`processor
      ensures processor != null && fresh(processor)
      ensures processor.hasLevelTrigger == hasLevelTrigger && processor.hasLogicOps == hasLogicOps
      ensures processor.hasArithOps == hasArithOps && processor.imemWords == imemWords
      ensures processor.instructions == [] && processor.inputValues == None
      ensures processor.inputs == StandardInputs
    {
      processor := new Processor(hasLevelTrigger, hasLogicOps, hasArithOps, imemWords);
    }

    /** Passes the frame on to the processor, if there is one yet; `None` when there is not. */
    method OnUpdate(v: VesselView) returns (r: Option<Outcome<string>>)
      modifies if processor != null then {processor} else {}
      ensures processor == null ==> r == None
      ensures processor != null ==>
        && processor.inputValues == Some(TakeSnapshot(processor.inputs, v).values)
        && r.Some? && (r.value.Pass? <==> TakeSnapshot(processor.inputs, v).duplicate.None?)
        && (r.value.Fail? ==> TakeSnapshot(processor.inputs, v).duplicate == Some(r.value.error))
      ensures processor != null ==>
        && processor.instructions == old(processor.instructions)
        && processor.inputs == old(processor.inputs)
        && processor.hasLevelTrigger == old(processor.hasLevelTrigger)
        && processor.hasLogicOps == old(processor.hasLogicOps)
        && processor.hasArithOps == old(processor.hasArithOps)
        && processor.imemWords == old(processor.imemWords)
    {
      if processor != null {
        var outcome := processor.OnUpdate(v);
        r := Some(outcome);
      } else {
        r := None;
      }
    }

    method GetInfo(nl: string) returns (info: string)
      requires IsNewLine(nl)
      ensures info == Join(CapabilityLines(hasLevelTrigger, hasLogicOps, hasArithOps), nl)
      ensures "Supports Edge-Triggers" <= info
      ensures info[|info| - 1] !in CharSet(nl)
      ensures !hasLevelTrigger && !hasLogicOps && !hasArithOps ==> info == "Supports Edge-Triggers"
    {
      var sb := "Supports Edge-Triggers" + nl;
      ghost var lines := ["Supports Edge-Triggers"];
      AppendLinesSnoc([], "Supports Edge-Triggers", nl);
      sb, lines := AppendLineWhen(sb, lines, hasLevelTrigger, "Supports Level-Triggers", nl);
      sb, lines := AppendLineWhen(sb, lines, hasLogicOps, "Supports Logical Ops", nl);
      sb, lines := AppendLineWhen(sb, lines, hasArithOps, "Supports Arithmetic Ops", nl);
      info := TrimEnd(sb, CharSet(nl));
      CapabilityInfoIsJoin(hasLevelTrigger, hasLogicOps, hasArithOps, nl);
      assert CharSet(nl) <= {'\n', '\r'};
      InfoTextStartsWithFirstLine(lines, nl);
    }
  }
}
