/**
 * What the KPU part modules' `FixedUpdate` decide (KPU.Modules): the checks
 * they run in order, the verdict of the first one that fails, and the status
 * text each verdict shows.
 */
module PartStatus {
  import opened Common

  /** The vessel as `FixedUpdate` reads it: the body it orbits and its altitude. */
  datatype Flight = Flight(bodyName: string, altitude: real)

  /** A sensor master as another module on the same part reads it. */
  datatype MasterView = MasterView(isWorking: bool, status: Option<string>)

  /** The outcome of one `FixedUpdate`: the first failed check, or Working. */
  datatype Verdict =
    | Inactive
    | NoPower
    | MasterDown(masterStatus: Option<string>)
    | NotAtBody(body: string)
    | TooHigh
    | Working

  /** The `GUI_status` each verdict sets; a failing master's status is copied, null included. */
  function StatusText(v: Verdict): (r: Option<string>)
    ensures r.None? <==> v.MasterDown? && v.masterStatus.None?
    ensures r == Some("OK") <==> v == Working || v == MasterDown(Some("OK"))
  {
    match v
    case Inactive => Some("Inactive")
    case NoPower => Some("No power!")
    case MasterDown(s) => s
    case NotAtBody(body) => Some("Not at " + body + "!")
    case TooHigh => Some("Too high!")
    case Working => Some("OK")
  }

  /** Apart from a copied master status, the status text tells the verdicts apart. */
  lemma StatusTextIdentifies(a: Verdict, b: Verdict)
    requires !a.MasterDown? && !b.MasterDown?
    requires StatusText(a) == StatusText(b)
    ensures a == b
  {
    var t := StatusText(a).value;
    if a.NotAtBody? || b.NotAtBody? {
      assert |t| >= 8 && t[..7] == "Not at " && t[2] == 't' && t[|t| - 1] == '!';
      if a.NotAtBody? && b.NotAtBody? {
        assert a.body == t[7..|t| - 1] == b.body;
      }
    }
  }

  /** The body check; an empty `requireBody` switches it off. */
  predicate WrongBody(requireBody: string, f: Flight)
  {
    |requireBody| > 0 && f.bodyName != requireBody
  }

  /** The altitude check; a `maxAltitude` of zero or less switches it off. */
  predicate AboveLimit(maxAltitude: real, f: Flight)
  {
    maxAltitude > 0.0 && f.altitude > maxAltitude
  }

  /** The body check, then the altitude check. */
  function LocationVerdict(requireBody: string, maxAltitude: real, f: Flight): (r: Verdict)
    ensures r == Working <==> !WrongBody(requireBody, f) && !AboveLimit(maxAltitude, f)
    ensures r == Working || r == NotAtBody(requireBody) || r == TooHigh
    ensures r == NotAtBody(requireBody) <==> WrongBody(requireBody, f)
    ensures r == TooHigh <==> !WrongBody(requireBody, f) && AboveLimit(maxAltitude, f)
    ensures requireBody == "" ==> !r.NotAtBody?
    ensures maxAltitude <= 0.0 ==> r != TooHigh
  {
    if WrongBody(requireBody, f) then NotAtBody(requireBody)
    else if AboveLimit(maxAltitude, f) then TooHigh
    else Working
  }

  /** A master that is present but not working overrides every other check; an absent one is skipped. */
  function MasterGate(master: Option<MasterView>, next: Verdict): (r: Verdict)
    ensures master.Some? && !master.value.isWorking ==> r == MasterDown(master.value.status)
    ensures master.None? || master.value.isWorking ==> r == next
  {
    if master.Some? && !master.value.isWorking then MasterDown(master.value.status) else next
  }

  /** `Environment.NewLine` on the platforms the game runs on. */
  predicate IsNewLine(nl: string)
  {
    nl == "\n" || nl == "\r\n"
  }
}
