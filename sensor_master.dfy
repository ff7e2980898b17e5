/** The sensor master part module (ModuleKpuSensorMaster): power, body and altitude checks, and its toggle. */
module SensorMaster {
  import opened Common
  import opened Strings
  import opened PartStatus

  /** Inactive, then power, then body, then altitude: the first failing check decides. */
  function MasterVerdict(isActive: bool, hasPower: bool, requireBody: string, maxAltitude: real, f: Flight): (r: Verdict)
    ensures r == Working <==>
      isActive && hasPower && !WrongBody(requireBody, f) && !AboveLimit(maxAltitude, f)
    ensures !isActive ==> r == Inactive
    ensures isActive && !hasPower ==> r == NoPower
    ensures isActive && hasPower ==> r == LocationVerdict(requireBody, maxAltitude, f)
  {
    if !isActive then Inactive
    else if !hasPower then NoPower
    else LocationVerdict(requireBody, maxAltitude, f)
  }

  /** The info lines, before trimming; the number formatting is supplied from outside. */
  function MasterInfoLines(maxAltitude: real, requireBody: string, electricRate: real,
                           formatSI: (real, string) -> string, formatF: real -> string): seq<string>
  {
    (if maxAltitude > 0.0 then ["Max. Altitude: " + formatSI(maxAltitude, "m")] else []) +
    (if |requireBody| > 0 then ["In orbit around: " + requireBody] else []) +
    (if electricRate > 0.0 then ["Energy req.: " + formatF(electricRate) + " charge/s"] else [])
  }

  class ModuleKpuSensorMaster {
    var electricRate: real
    var maxAltitude: real
    var requireBody: string
    var isActive: bool
    var isWorking: bool
    var status: Option<string>
    /** `Events["EventToggle"].guiName` and `.guiActive`. */
    var toggleLabel: string
    var toggleVisible: bool

    /** A module with its configuration fields loaded; the event as its attribute declares it. */
    constructor (electricRate: real, maxAltitude: real, requireBody: string, isActive: bool)
      ensures this.electricRate == electricRate && this.maxAltitude == maxAltitude
      ensures this.requireBody == requireBody && this.isActive == isActive
      ensures !isWorking && status == None
      ensures toggleLabel == "Toggle" && !toggleVisible
    {
      this.electricRate := electricRate;
      this.maxAltitude := maxAltitude;
      this.requireBody := requireBody;
      this.isActive := isActive;
      isWorking := false;
      status := None;
      toggleLabel := "Toggle";
      toggleVisible := false;
    }

    /** Labels the toggle by what pressing it would do, and shows it. */
    method SetActive()
      modifies this`toggleLabel, this`toggleVisible
      ensures toggleLabel == (if isActive then "Deactivate" else "Activate")
      ensures toggleVisible
    {
      toggleLabel := if isActive then "Deactivate" else "Activate";
      toggleVisible := true;
    }

    method OnStart()
      modifies this`toggleLabel, this`toggleVisible
      ensures toggleLabel == (if isActive then "Deactivate" else "Activate")
      ensures toggleVisible
    {
      SetActive();
    }

    method EventToggle()
      modifies this`isActive, this`toggleLabel, this`toggleVisible
      ensures isActive == !old(isActive)
      ensures toggleLabel == (if isActive then "Deactivate" else "Activate")
      ensures toggleVisible
    {
      isActive := !isActive;
      SetActive();
    }

    /**
     * One physics tick. `hasPower` is whether the charge granted covers 90%
     * of the request; the result says whether charge was requested at all.
     */
    method FixedUpdate(vessel: Option<Flight>, hasPower: bool) returns (drewPower: bool)
      modifies this`isWorking, this`status
      ensures vessel.None? ==> isWorking == old(isWorking) && status == old(status)
      ensures drewPower <==> vessel.Some? && isActive
      ensures vessel.Some? ==>
        var r := MasterVerdict(isActive, hasPower, requireBody, maxAltitude, vessel.value);
        isWorking == (r == Working) && status == StatusText(r)
    {
      drewPower := false;
      if vessel.None? {
        return;
      }
      var f := vessel.value;
      if !isActive {
        isWorking := false;
        status := Some("Inactive");
        return;
      }
      drewPower := true;
      if !hasPower {
        status := Some("No power!");
        isWorking := false;
        return;
      }
      if |requireBody| > 0 && f.bodyName != requireBody {
        status := Some("Not at " + requireBody + "!");
        isWorking := false;
        return;
      }
      if maxAltitude > 0.0 && f.altitude > maxAltitude {
        status := Some("Too high!");
        isWorking := false;
        return;
      }
      isWorking := true;
      status := Some("OK");
    }

    method GetInfo(nl: string, formatSI: (real, string) -> string, formatF: real -> string) returns (info: string)
      requires IsNewLine(nl)
      ensures info == InfoText(MasterInfoLines(maxAltitude, requireBody, electricRate, formatSI, formatF), nl)
      ensures info == "" || info[|info| - 1] !in CharSet(nl)
      ensures maxAltitude <= 0.0 && requireBody == "" && electricRate <= 0.0 ==> info == ""
    {
      var sb := "";
      ghost var lines: seq<string> := [];
      if maxAltitude > 0.0 {
        var line := "Max. Altitude: " + formatSI(maxAltitude, "m");
        AppendLinesSnoc(lines, line, nl);
        sb, lines := sb + line + nl, lines + [line];
      }
      if |requireBody| > 0 {
        var line := "In orbit around: " + requireBody;
        AppendLinesSnoc(lines, line, nl);
        sb, lines := sb + line + nl, lines + [line];
      }
      if electricRate > 0.0 {
        var line := "Energy req.: " + formatF(electricRate) + " charge/s";
        AppendLinesSnoc(lines, line, nl);
        sb, lines := sb + line + nl, lines + [line];
      }
      assert lines == MasterInfoLines(maxAltitude, requireBody, electricRate, formatSI, formatF);
      info := TrimEnd(sb, CharSet(nl));
    }
  }

  /** Toggling twice restores the active flag and the label. */
  method ToggleTwice(m: ModuleKpuSensorMaster)
    modifies m
    ensures m.isActive == old(m.isActive)
    ensures m.toggleLabel == (if m.isActive then "Deactivate" else "Activate")
  {
    m.EventToggle();
    m.EventToggle();
  }
}
