/** The orientation source part module (ModuleKpuOrientation). */
module Orientation {
  import opened Common
  import opened Strings
  import opened PartStatus
  import opened SensorMaster

  /** How a sibling sensor master looks to this module; `null` when the part has none. */
  function ViewOf(master: ModuleKpuSensorMaster?): (r: Option<MasterView>)
    reads master
    ensures r.None? <==> master == null
    ensures r.Some? ==> (r.value.isWorking <==> master.isWorking) && r.value.status == master.status
  {
    if master == null then None else Some(MasterView(master.isWorking, master.status))
  }

  /** The master gate, then the body check, then the altitude check. */
  function OrientationVerdict(master: Option<MasterView>, requireBody: string, maxAltitude: real, f: Flight): (r: Verdict)
    ensures r == Working <==>
      (master.None? || master.value.isWorking) && !WrongBody(requireBody, f) && !AboveLimit(maxAltitude, f)
    ensures master.Some? && !master.value.isWorking ==> r == MasterDown(master.value.status)
    ensures master.None? ==> r == LocationVerdict(requireBody, maxAltitude, f)
    ensures !r.MasterDown? ==> r == LocationVerdict(requireBody, maxAltitude, f)
  {
    MasterGate(master, LocationVerdict(requireBody, maxAltitude, f))
  }

  /** "Orientation source:" and then a "Gives …" line per positive field, in declaration order. */
  function SourceLines(srfVertical: int, orbVertical: int, srfPrograde: int, orbPrograde: int, customHP: int): seq<string>
  {
    ["Orientation source:"] +
    When(srfVertical > 0, "Gives srfVertical") +
    When(orbVertical > 0, "Gives orbVertical") +
    When(srfPrograde > 0, "Gives srfPrograde, srfRetrograde") +
    When(orbPrograde > 0, "Gives orbPrograde, orbRetrograde") +
    When(customHP > 0, "Gives customHP")
  }

  /** Every info line before trimming; `formatG` and `formatSI` stand for the number formatting. */
  function OrientationInfoLines(srfVertical: int, orbVertical: int, srfPrograde: int, orbPrograde: int, customHP: int,
                                resolution: real, maxAltitude: real, requireBody: string,
                                formatG: real -> string, formatSI: (real, string) -> string): seq<string>
  {
    SourceLines(srfVertical, orbVertical, srfPrograde, orbPrograde, customHP) +
    When(resolution > 0.0, "Resolution: " + formatG(resolution) + "°") +
    When(maxAltitude > 0.0, "Max. Altitude: " + formatSI(maxAltitude, "m")) +
    When(|requireBody| > 0, "In orbit around: " + requireBody)
  }

  /** Each "Gives …" line is present exactly when its field is positive, after the header. */
  lemma SourceLinesMention(srfVertical: int, orbVertical: int, srfPrograde: int, orbPrograde: int, customHP: int)
    ensures var lines := SourceLines(srfVertical, orbVertical, srfPrograde, orbPrograde, customHP);
      && lines[0] == "Orientation source:"
      && ("Gives srfVertical" in lines <==> srfVertical > 0)
      && ("Gives orbVertical" in lines <==> orbVertical > 0)
      && ("Gives srfPrograde, srfRetrograde" in lines <==> srfPrograde > 0)
      && ("Gives orbPrograde, orbRetrograde" in lines <==> orbPrograde > 0)
      && ("Gives customHP" in lines <==> customHP > 0)
  {
  }

  /** The last source line ends in a letter or a colon, never in a newline character. */
  lemma SourceLastLine(srfVertical: int, orbVertical: int, srfPrograde: int, orbPrograde: int, customHP: int, nl: string)
    requires IsNewLine(nl)
    ensures var lines := SourceLines(srfVertical, orbVertical, srfPrograde, orbPrograde, customHP);
      var last := lines[|lines| - 1];
      last != "" && last[|last| - 1] !in CharSet(nl)
  {
  }

  /** The info text begins with the header line, whatever else is configured. */
  lemma InfoStartsWithHeader(srfVertical: int, orbVertical: int, srfPrograde: int, orbPrograde: int, customHP: int,
                             resolution: real, maxAltitude: real, requireBody: string,
                             formatG: real -> string, formatSI: (real, string) -> string, nl: string)
    requires IsNewLine(nl)
    ensures "Orientation source:" <= InfoText(OrientationInfoLines(srfVertical, orbVertical, srfPrograde, orbPrograde, customHP,
                                                                   resolution, maxAltitude, requireBody, formatG, formatSI), nl)
  {
    var lines := OrientationInfoLines(srfVertical, orbVertical, srfPrograde, orbPrograde, customHP,
                                      resolution, maxAltitude, requireBody, formatG, formatSI);
    assert lines[0] == "Orientation source:";
    assert CharSet(nl) <= {'\n', '\r'};
    InfoTextStartsWithFirstLine(lines, nl);
  }

  /** Without the resolution, altitude and body lines, the info text is the source lines joined. */
  lemma InfoWithoutLimits(srfVertical: int, orbVertical: int, srfPrograde: int, orbPrograde: int, customHP: int,
                          formatG: real -> string, formatSI: (real, string) -> string, nl: string)
    requires IsNewLine(nl)
    ensures InfoText(OrientationInfoLines(srfVertical, orbVertical, srfPrograde, orbPrograde, customHP,
                                          0.0, 0.0, "", formatG, formatSI), nl)
         == Join(SourceLines(srfVertical, orbVertical, srfPrograde, orbPrograde, customHP), nl)
  {
    var source := SourceLines(srfVertical, orbVertical, srfPrograde, orbPrograde, customHP);
    assert OrientationInfoLines(srfVertical, orbVertical, srfPrograde, orbPrograde, customHP,
                                0.0, 0.0, "", formatG, formatSI) == source + [] + [] + [];
    assert source + [] + [] + [] == source;
    SourceLastLine(srfVertical, orbVertical, srfPrograde, orbPrograde, customHP, nl);
    InfoTextIsJoin(source, nl);
  }

  class ModuleKpuOrientation {
    var srfVertical: int
    var orbVertical: int
    var srfPrograde: int
    var orbPrograde: int
    var customHP: int
    var resolution: real
    var maxAltitude: real
    var requireBody: string
    var status: Option<string>
    var isWorking: bool

    /** A module with its configuration fields loaded. */
    constructor (srfVertical: int, orbVertical: int, srfPrograde: int, orbPrograde: int, customHP: int,
                 resolution: real, maxAltitude: real, requireBody: string)
      ensures this.srfVertical == srfVertical && this.orbVertical == orbVertical
      ensures this.srfPrograde == srfPrograde && this.orbPrograde == orbPrograde && this.customHP == customHP
      ensures this.resolution == resolution && this.maxAltitude == maxAltitude && this.requireBody == requireBody
      ensures status == Some("Inactive") && !isWorking
    {
      this.srfVertical := srfVertical;
      this.orbVertical := orbVertical;
      this.srfPrograde := srfPrograde;
      this.orbPrograde := orbPrograde;
      this.customHP := customHP;
      this.resolution := resolution;
      this.maxAltitude := maxAltitude;
      this.requireBody := requireBody;
      status := Some("Inactive");
      isWorking := false;
    }

    /** One physics tick; `master` is the part's sensor master, if it has one. */
    method FixedUpdate(vessel: Option<Flight>, master: ModuleKpuSensorMaster?)
      modifies this`isWorking, this`status
      ensures vessel.None? ==> isWorking == old(isWorking) && status == old(status)
      ensures vessel.Some? ==>
        var r := OrientationVerdict(ViewOf(master), requireBody, maxAltitude, vessel.value);
        isWorking == (r == Working) && status == StatusText(r)
    {
      if vessel.None? {
        return;
      }
      var f := vessel.value;
      if master != null && !master.isWorking {
        status := master.status;
        isWorking := false;
        return;
      }
      if |requireBody| > 0 && f.bodyName != requireBody {
        status := Some("Not at " + requireBody + "!");
        isWorking := false;
        return;
      }
      if maxAltitude > 0.0 && f.altitude > maxAltitude {
        status := Some("Too high!");
        isWorking := false;
        return;
      }
      isWorking := true;
      status := Some("OK");
    }

    method GetInfo(nl: string, formatG: real -> string, formatSI: (real, string) -> string) returns (info: string)
      requires IsNewLine(nl)
      ensures info == InfoText(OrientationInfoLines(srfVertical, orbVertical, srfPrograde, orbPrograde, customHP,
                                                    resolution, maxAltitude, requireBody, formatG, formatSI), nl)
      ensures "Orientation source:" <= info
      ensures info[|info| - 1] !in CharSet(nl)
    {
      var sb := "Orientation source:" + nl;
      ghost var lines := ["Orientation source:"];
      AppendLinesSnoc([], "Orientation source:", nl);
      sb, lines := AppendLineWhen(sb, lines, srfVertical > 0, "Gives srfVertical", nl);
      sb, lines := AppendLineWhen(sb, lines, orbVertical > 0, "Gives orbVertical", nl);
      sb, lines := AppendLineWhen(sb, lines, srfPrograde > 0, "Gives srfPrograde, srfRetrograde", nl);
      sb, lines := AppendLineWhen(sb, lines, orbPrograde > 0, "Gives orbPrograde, orbRetrograde", nl);
      sb, lines := AppendLineWhen(sb, lines, customHP > 0, "Gives customHP", nl);
      sb, lines := AppendLineWhen(sb, lines, resolution > 0.0, "Resolution: " + formatG(resolution) + "°", nl);
      sb, lines := AppendLineWhen(sb, lines, maxAltitude > 0.0, "Max. Altitude: " + formatSI(maxAltitude, "m"), nl);
      sb, lines := AppendLineWhen(sb, lines, |requireBody| > 0, "In orbit around: " + requireBody, nl);
      info := TrimEnd(sb, CharSet(nl));
      InfoStartsWithHeader(srfVertical, orbVertical, srfPrograde, orbPrograde, customHP,
                           resolution, maxAltitude, requireBody, formatG, formatSI, nl);
    }
  }
}
