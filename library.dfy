/** The program library: named KPU programs kept in a dictionary (KPU.Library). */
module KpuLibrary {
  import opened Common
  import opened Strings
  import opened Instructions

  // ---------------------------------------------------------------- aggregates over a program's code

  /** `code.Exists(i => i.requires<c>)`. */
  function AnyNeeds(code: seq<Instruction>, c: Capability): (b: bool)
    ensures b <==> exists k :: 0 <= k < |code| && Needs(code[k], c)
  {
    if code == [] then false else Needs(code[0], c) || AnyNeeds(code[1..], c)
  }

  /** `code.Sum(i => i.imemWords)`. */
  function TotalWords(code: seq<Instruction>): int
  {
    if code == [] then 0 else code[0].attrs.imemWords + TotalWords(code[1..])
  }

  lemma {:induction false} TotalWordsAppend(a: seq<Instruction>, b: seq<Instruction>)
    ensures TotalWords(a + b) == TotalWords(a) + TotalWords(b)
  {
    if a == [] {
      assert a + b == b;
    } else {
      assert (a + b)[1..] == a[1..] + b;
      TotalWordsAppend(a[1..], b);
    }
  }

  /**
   * `Enumerable.Sum` over 32-bit words, folded from the left from `acc` in a checked
   * context: `None` stands for the `OverflowException` thrown at the first running
   * total outside the 32-bit range.
   */
  function CheckedSumFrom(acc: int, code: seq<Instruction>): Option<int>
    decreases code
  {
    if code == [] then Some(acc)
    else
      var next := acc + code[0].attrs.imemWords;
      if IsInt32(next) then CheckedSumFrom(next, code[1..]) else None
  }

  /**
   * The checked sum succeeds exactly when every running total fits in 32 bits, and
   * then it is the plain total.
   */
  lemma {:induction false} CheckedSumFromSpec(acc: int, code: seq<Instruction>)
    ensures CheckedSumFrom(acc, code).Some? <==>
      forall k :: 0 < k <= |code| ==> IsInt32(acc + TotalWords(code[..k]))
    ensures CheckedSumFrom(acc, code).Some? ==> CheckedSumFrom(acc, code).value == acc + TotalWords(code)
    decreases code
  {
    if code != [] {
      var next := acc + code[0].attrs.imemWords;
      CheckedSumFromSpec(next, code[1..]);
      forall k | 0 < k <= |code|
        ensures acc + TotalWords(code[..k]) == next + TotalWords(code[1..][..k - 1])
      {
        assert code[..k][1..] == code[1..][..k - 1];
      }
      assert code[..1][1..] == [];
      if IsInt32(next) {
        forall k | 0 < k <= |code[1..]| + 1
          ensures IsInt32(acc + TotalWords(code[..k])) <==> (k == 1 || IsInt32(next + TotalWords(code[1..][..k - 1])))
        {
        }
        if forall k :: 0 < k <= |code| ==> IsInt32(acc + TotalWords(code[..k])) {
          forall k | 0 < k <= |code[1..]|
            ensures IsInt32(next + TotalWords(code[1..][..k]))
          {
            assert acc + TotalWords(code[..k + 1]) == next + TotalWords(code[1..][..k]);
          }
        }
      }
    }
  }

  lemma AnyNeedsAppend(a: seq<Instruction>, b: seq<Instruction>, c: Capability)
    ensures AnyNeeds(a + b, c) <==> AnyNeeds(a, c) || AnyNeeds(b, c)
  {
    if AnyNeeds(a, c) {
      var k :| 0 <= k < |a| && Needs(a[k], c);
      assert (a + b)[k] == a[k];
    }
    if AnyNeeds(b, c) {
      var k :| 0 <= k < |b| && Needs(b[k], c);
      assert (a + b)[|a| + k] == b[k];
    }
    if AnyNeeds(a + b, c) {
      var k :| 0 <= k < |a + b| && Needs((a + b)[k], c);
      if k >= |a| {
        assert (a + b)[k] == b[k - |a|];
      }
    }
  }

  // ---------------------------------------------------------------- Program

  class Program {
    var name: Option<string>
    var description: string
    var code: seq<Instruction>

    constructor ()
      ensures name == None && description == "" && code == []
    {
      name := None;
      description := "";
      code := [];
    }

    method AddCode(insns: seq<Instruction>)
      modifies this`code
      ensures code == old(code) + insns
      ensures TotalWords(code) == old(TotalWords(code)) + TotalWords(insns)
      ensures RequiresLevelTrigger() <==> old(RequiresLevelTrigger()) || AnyNeeds(insns, LevelTrigger)
    {
      TotalWordsAppend(code, insns);
      AnyNeedsAppend(code, insns, LevelTrigger);
      code := code + insns;
    }

    function RequiresLevelTrigger(): (b: bool)
      reads this
      ensures b <==> exists k :: 0 <= k < |code| && code[k].attrs.requiresLevelTrigger
    {
      AnyNeeds(code, LevelTrigger)
    }

    function RequiresLogicOps(): (b: bool)
      reads this
      ensures b <==> exists k :: 0 <= k < |code| && code[k].attrs.requiresLogicOps
    {
      AnyNeeds(code, LogicOps)
    }

    function RequiresArithOps(): (b: bool)
      reads this
      ensures b <==> exists k :: 0 <= k < |code| && code[k].attrs.requiresArithOps
    {
      AnyNeeds(code, ArithOps)
    }

    /**
     * The IMEM words the program needs; `None` where the checked sum overflows, and
     * otherwise the total of the instructions' words.
     */
    function ImemWords(): (r: Option<int>)
      reads this
      ensures r.Some? <==> forall k :: 0 < k <= |code| ==> IsInt32(TotalWords(code[..k]))
      ensures r.Some? ==> r.value == TotalWords(code) && IsInt32(r.value)
    {
      CheckedSumFromSpec(0, code);
      assert code[..|code|] == code;
      CheckedSumFrom(0, code)
    }

    /** The union of the inputs every instruction uses. */
    method UsedInputs() returns (used: set<string>)
      ensures forall x :: x in used <==> exists k :: 0 <= k < |code| && x in code[k].attrs.usedInputs
    {
      used := {};
      for n := 0 to |code|
        invariant forall x :: x in used <==> exists k :: 0 <= k < n && x in code[k].attrs.usedInputs
      {
        used := used + code[n].attrs.usedInputs;
      }
    }

    /** The union of the orientations every instruction uses. */
    method UsedOrients() returns (used: set<string>)
      ensures forall x :: x in used <==> exists k :: 0 <= k < |code| && x in code[k].attrs.usedOrients
    {
      used := {};
      for n := 0 to |code|
        invariant forall x :: x in used <==> exists k :: 0 <= k < n && x in code[k].attrs.usedOrients
      {
        used := used + code[n].attrs.usedOrients;
      }
    }
  }

  // ---------------------------------------------------------------- fresh names

  const Untitled: string := "Untitled"

  /** `String.Format("Untitled #{0:D}", i)`. */
  function UntitledNumbered(i: int): string
  {
    "Untitled #" + IntToDecimal(i)
  }

  /** Different counter values give different names, none of them the plain `Untitled`. */
  lemma UntitledNumberedInjective(i: int, j: int)
    ensures UntitledNumbered(i) == UntitledNumbered(j) <==> i == j
    ensures UntitledNumbered(i) != Untitled
  {
    var prefix := "Untitled #";
    if UntitledNumbered(i) == UntitledNumbered(j) {
      assert UntitledNumbered(i)[|prefix|..] == IntToDecimal(i);
      assert UntitledNumbered(j)[|prefix|..] == IntToDecimal(j);
      IntToDecimalInjective(i, j);
    }
    assert |UntitledNumbered(i)| > |Untitled|;
  }

  /** The counter values `chooseName` tries: 2 up to int.MaxValue, then int.MinValue up to -1. */
  predicate IsCandidate(i: int)
  {
    IsInt32(i) && i != 0 && i != 1
  }

  /** The position at which `chooseName` tries `i`; 0 comes last, where the loop stops. */
  function TryOrder(i: int): (r: int)
    ensures IsCandidate(i) ==> 0 <= r < 0x1_0000_0000 - 2
    ensures i == 0 ==> r == 0x1_0000_0000 - 2
  {
    if i >= 2 then i - 2 else i + 0x1_0000_0000 - 2
  }

  /** Each `i++` of the loop moves one place on in the order; 2 is first. */
  lemma TryOrderStep(i: int)
    requires IsCandidate(i)
    ensures TryOrder(Increment32(i)) == TryOrder(i) + 1
    ensures TryOrder(2) == 0
  {
  }

  /** No two 32-bit counter values share a place in the order. */
  lemma TryOrderInjective(i: int, j: int)
    requires IsInt32(i) && IsInt32(j) && i != 1 && j != 1
    ensures TryOrder(i) == TryOrder(j) <==> i == j
  {
  }

  datatype LibraryError = NullName | DuplicateName(name: string)

  // ---------------------------------------------------------------- Library

  class Library {
    var programs: map<string, Program>

    /** Every program is stored under its own name. */
    ghost predicate Valid()
      reads this, programs.Values
    {
      forall k :: k in programs ==> programs[k].name == Some(k)
    }

    constructor ()
      ensures Valid() && programs == map[]
    {
      programs := map[];
    }

    function IsEmpty(): (b: bool)
      reads this
      ensures b <==> programs.Keys == {}
    {
      |programs| == 0
    }

    function NameExists(name: string): (b: bool)
      reads this
      ensures b <==> name in programs.Keys
    {
      name in programs
    }

    /** The stored names in ascending order. */
    method ProgramNames() returns (names: seq<string>)
      ensures StrictlyAscending(names)
      ensures forall n :: n in names <==> n in programs
      ensures |names| == |programs|
      ensures names == [] <==> IsEmpty()
    {
      names := [];
      var rest := programs.Keys;
      while rest != {}
        invariant rest <= programs.Keys
        invariant StrictlyAscending(names)
        invariant forall n :: n in names <==> n in programs && n !in rest
        invariant |names| + |rest| == |programs.Keys|
        decreases |rest|
      {
        var k :| k in rest;
        InsertSortedAscending(names, k);
        InsertSortedMembers(names, k);
        names := InsertSorted(names, k);
        rest := rest - {k};
      }
      assert |programs.Keys| == |programs|;
    }

    /** A name no program has: "Untitled", else the first free "Untitled #i"; None once every counter value is used. */
    method ChooseName() returns (r: Option<string>)
      ensures r.Some? ==> r.value !in programs
      ensures r == Some(Untitled) <==> Untitled !in programs
      ensures r.Some? && r.value != Untitled ==>
        exists i :: IsCandidate(i) && r.value == UntitledNumbered(i) &&
          forall j :: IsCandidate(j) && TryOrder(j) < TryOrder(i) ==> UntitledNumbered(j) in programs
      ensures r.None? ==> Untitled in programs && forall j :: IsCandidate(j) ==> UntitledNumbered(j) in programs
    {
      if !NameExists(Untitled) {
        return Some(Untitled);
      }
      var i := 2;
      while i != 0
        invariant IsInt32(i) && i != 1
        invariant forall j :: IsCandidate(j) && TryOrder(j) < TryOrder(i) ==> UntitledNumbered(j) in programs
        decreases 0x1_0000_0000 - 2 - TryOrder(i)
      {
        var name := UntitledNumbered(i);
        if !NameExists(name) {
          return Some(name);
        }
        i := Increment32(i);
      }
      return None;
    }

    function GetProgram(name: string): (p: Program?)
      reads this
      ensures p == null <==> name !in programs
      ensures p != null ==> p == programs[name]
    {
      if NameExists(name) then programs[name] else null
    }

    /** `mPrograms.Add(prog.name, prog)`, which throws on a null or already used name. */
    method PutProgram(prog: Program) returns (r: Outcome<LibraryError>)
      requires Valid()
      modifies this
      ensures Valid()
      ensures r.Pass? <==> prog.name.Some? && prog.name.value !in old(programs)
      ensures r.Pass? ==> programs == old(programs)[prog.name.value := prog]
      ensures r.Fail? ==> programs == old(programs)
      ensures prog.name.None? ==> r == Fail(NullName)
    {
      if prog.name.None? {
        return Fail(NullName);
      }
      var key := prog.name.value;
      if key in programs {
        return Fail(DuplicateName(key));
      }
      programs := programs[key := prog];
      return Pass;
    }

    method DeleteProgram(name: string)
      requires Valid()
      modifies this
      ensures Valid()
      ensures programs == old(programs) - {name}
    {
      if NameExists(name) {
        programs := programs - {name};
      }
    }

    /** Moves a program to a new name; false, with nothing changed, when the old name is missing or the new one taken. */
    method RenameProgram(oldName: string, newName: string) returns (ok: bool)
      requires Valid()
      modifies this, if oldName in programs then {programs[oldName]} else {}
      ensures Valid()
      ensures ok <==> oldName in old(programs) && (oldName == newName || newName !in old(programs))
      ensures !ok || oldName == newName ==> programs == old(programs)
      ensures ok && oldName != newName ==>
        programs == (old(programs) - {oldName})[newName := old(programs)[oldName]]
      ensures ok ==> |programs| == |old(programs)|
      ensures oldName in old(programs) ==>
        var p := old(programs)[oldName];
        p.description == old(p.description) && p.code == old(p.code)
    {
      var prog := GetProgram(oldName);
      if prog == null {
        return false;
      }
      if oldName == newName {
        return true;
      }
      if NameExists(newName) {
        return false;
      }
      ghost var before := programs;
      programs := programs - {oldName};
      assert forall k :: k in programs ==> programs[k] != prog;
      prog.name := Some(newName);
      var r := PutProgram(prog);
      assert r.Pass?;
      MapMoveSize(before, oldName, newName, prog);
      return true;
    }
  }

  /** Moving a key to an unused key keeps the number of entries. */
  lemma MapMoveSize<V>(m: map<string, V>, a: string, b: string, v: V)
    requires a in m && b !in m
    ensures |(m - {a})[b := v]| == |m|
  {
  }
}
