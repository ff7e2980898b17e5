/** The inertial platform part module (ModuleKpuInertialPlatform): only the master gate. */
module InertialPlatform {
  import opened Common
  import opened Strings
  import opened PartStatus
  import opened SensorMaster
  import Orientation

  /** Working unless a sibling master is present and not working. */
  function PlatformVerdict(master: Option<MasterView>): (r: Verdict)
    ensures r == Working <==> master.None? || master.value.isWorking
    ensures r != Working ==> r == MasterDown(master.value.status)
  {
    MasterGate(master, Working)
  }

  class ModuleKpuInertialPlatform {
    var status: Option<string>
    var isWorking: bool

    constructor ()
      ensures status == Some("Inactive") && !isWorking
    {
      status := Some("Inactive");
      isWorking := false;
    }

    method FixedUpdate(vessel: Option<Flight>, master: ModuleKpuSensorMaster?)
      modifies this`isWorking, this`status
      ensures vessel.None? ==> isWorking == old(isWorking) && status == old(status)
      ensures vessel.Some? ==>
        var r := PlatformVerdict(Orientation.ViewOf(master));
        isWorking == (r == Working) && status == StatusText(r)
    {
      if vessel.None? {
        return;
      }
      if master != null && !master.isWorking {
        status := master.status;
        isWorking := false;
        return;
      }
      isWorking := true;
      status := Some("OK");
    }

    method GetInfo(nl: string) returns (info: string)
      requires IsNewLine(nl)
      ensures info == "Inertial platform"
    {
      var sb, lines := AppendLineWhen("", [], true, "Inertial platform", nl);
      info := TrimEnd(sb, CharSet(nl));
      assert CharSet(nl) <= {'\n', '\r'};
      InfoTextIsJoin(lines, nl);
      assert Join(lines, nl) == "Inertial platform";
    }
  }
}
