/**
 * The build planner: a wizard that walks the user from a case to a
 * motherboard, a CPU, RAM modules, a power supply and an optional
 * graphics card, offering at each step only the catalog parts compatible
 * with what was already chosen, and that turns a finished build into an
 * id-only saved build.
 *
 * Each handler of the page is a method of `Planner`; the build update it
 * hands to the state setter is a pure function (`WithCase`, `ToggledRam`,
 * ...) whose contract says what changes and which invariant it keeps.
 */
module BuildPlanner {
  import opened Wrappers
  import opened Seqs
  import opened PartTypes

  /** The build the planner starts from, and returns to on "start over". */
  const InitialBuild: PCBuild := PCBuild("build-1", "My PC Build", None, None, None, [], None, None)

  // Compatibility predicates

  predicate FitsCase(mb: Motherboard, c: Case) {
    mb.spec.formFactor in c.spec.supportedFormFactors
  }

  /** Exact socket equality: belonging to the same family is not enough. */
  predicate FitsSocket(cpu: Cpu, mb: Motherboard) {
    cpu.spec.socket == mb.spec.socket
  }

  predicate FitsMemory(r: Ram, mb: Motherboard) {
    r.spec.memoryType in mb.spec.memoryTypes
  }

  // Derived values

  /** The motherboard's memory slot count, or 0 without a motherboard. */
  function MaxSlots(b: PCBuild): nat {
    if b.motherboard.Some? then b.motherboard.value.spec.memorySlots else 0
  }

  function SlotsUsed(b: PCBuild): nat {
    |b.ram|
  }

  /** The summed capacity of the modules, added up from the left as `reduce` does. */
  function TotalCapacity(ram: seq<Ram>): nat {
    if ram == [] then 0 else TotalCapacity(ram[..|ram| - 1]) + ram[|ram| - 1].spec.capacity
  }

  /** The capacity of two module lists together is the sum of their capacities. */
  lemma {:induction false} TotalCapacityConcat(a: seq<Ram>, b: seq<Ram>)
    ensures TotalCapacity(a + b) == TotalCapacity(a) + TotalCapacity(b)
  {
    if b == [] {
      assert a + b == a;
    } else {
      assert (a + b)[..|a + b| - 1] == a + b[..|b| - 1];
      TotalCapacityConcat(a, b[..|b| - 1]);
    }
  }

  // Candidate lists

  /** The cases offered at the case step: all of them without a form-factor filter, otherwise those supporting a selected form factor. */
  function FilteredCases(cases: seq<Case>, selected: seq<FormFactor>): (r: seq<Case>)
    ensures selected == [] ==> r == cases
    ensures selected != [] ==>
      forall c :: c in r <==> c in cases && exists f :: f in selected && f in c.spec.supportedFormFactors
    ensures selected != [] ==> forall c ::
      multiset(r)[c] == if exists f :: f in selected && f in c.spec.supportedFormFactors then multiset(cases)[c] else 0
    ensures IsSubsequence(r, cases)
  {
    if |selected| == 0 then IsSubsequenceReflexive(cases); cases
    else
      var fits := (c: Case) => exists f :: f in selected && f in c.spec.supportedFormFactors;
      FilterCounts(cases, fits);
      Filter(cases, fits)
  }

  /** The motherboards offered: all of them without a case, otherwise those whose form factor the case supports. */
  function AvailableMotherboards(pcCase: Option<Case>, motherboards: seq<Motherboard>): (r: seq<Motherboard>)
    ensures pcCase.None? ==> r == motherboards
    ensures pcCase.Some? ==> forall mb :: mb in r <==> mb in motherboards && FitsCase(mb, pcCase.value)
    ensures pcCase.Some? ==> forall mb :: multiset(r)[mb] == if FitsCase(mb, pcCase.value) then multiset(motherboards)[mb] else 0
    ensures IsSubsequence(r, motherboards)
  {
    if pcCase.None? then IsSubsequenceReflexive(motherboards); motherboards
    else
      var fits := (mb: Motherboard) => FitsCase(mb, pcCase.value);
      FilterCounts(motherboards, fits);
      Filter(motherboards, fits)
  }

  /** The CPUs offered: none without a motherboard, otherwise those with the motherboard's exact socket. */
  function CompatibleCpus(motherboard: Option<Motherboard>, cpus: seq<Cpu>): (r: seq<Cpu>)
    ensures motherboard.None? ==> r == []
    ensures motherboard.Some? ==> forall c :: c in r <==> c in cpus && FitsSocket(c, motherboard.value)
    ensures motherboard.Some? ==> forall c :: multiset(r)[c] == if FitsSocket(c, motherboard.value) then multiset(cpus)[c] else 0
    ensures IsSubsequence(r, cpus)
  {
    if motherboard.None? then []
    else
      var fits := (c: Cpu) => FitsSocket(c, motherboard.value);
      FilterCounts(cpus, fits);
      Filter(cpus, fits)
  }

  /** The RAM offered: none without a motherboard, otherwise the modules of a memory type it supports. */
  function CompatibleRam(motherboard: Option<Motherboard>, ram: seq<Ram>): (r: seq<Ram>)
    ensures motherboard.None? ==> r == []
    ensures motherboard.Some? ==> forall m :: m in r <==> m in ram && FitsMemory(m, motherboard.value)
    ensures motherboard.Some? ==> forall m :: multiset(r)[m] == if FitsMemory(m, motherboard.value) then multiset(ram)[m] else 0
    ensures IsSubsequence(r, ram)
  {
    if motherboard.None? then []
    else
      var fits := (m: Ram) => FitsMemory(m, motherboard.value);
      FilterCounts(ram, fits);
      Filter(ram, fits)
  }

  // Invariants

  /**
   * Kept by every handler whatever the order of calls: no more modules
   * than the motherboard has slots (none without a motherboard) and no
   * module id twice.
   */
  predicate SlotsRespected(b: PCBuild) {
    |b.ram| <= MaxSlots(b) && UniqueIds(b.ram)
  }

  /**
   * Holds when every part was picked from the list the planner offered for
   * it: the motherboard fits the case, the CPU has the motherboard's socket,
   * every module has a memory type the motherboard supports, and nothing is
   * chosen before a case.
   */
  predicate Compatible(b: PCBuild) {
    && (b.motherboard.Some? ==> b.pcCase.Some? && FitsCase(b.motherboard.value, b.pcCase.value))
    && (b.cpu.Some? ==> b.motherboard.Some? && FitsSocket(b.cpu.value, b.motherboard.value))
    && (forall m :: m in b.ram ==> b.motherboard.Some? && FitsMemory(m, b.motherboard.value))
    && (b.powerSupply.Some? || b.graphicsCard.Some? ==> b.pcCase.Some?)
  }

  /** The planner's state as the page lets it evolve: a compatible build, and a case chosen before leaving the case step. */
  predicate WizardInvariant(b: PCBuild, step: BuildStep) {
    Compatible(b) && (step != CaseStep ==> b.pcCase.Some?)
  }

  lemma {:induction false} FilterKeepsUniqueIds(s: seq<Ram>, p: Ram -> bool)
    requires UniqueIds(s)
    ensures UniqueIds(Filter(s, p))
  {
    if s != [] {
      assert UniqueIds(s[1..]) by {
        forall i, j | 0 <= i < j < |s[1..]| ensures s[1..][i].info.id != s[1..][j].info.id {
          assert s[1..][i] == s[i + 1] && s[1..][j] == s[j + 1];
        }
      }
      FilterKeepsUniqueIds(s[1..], p);
      var rest := Filter(s[1..], p);
      if p(s[0]) {
        forall x | x in rest ensures x.info.id != s[0].info.id {
          var j :| 0 <= j < |s[1..]| && s[1..][j] == x;
          assert s[j + 1] == x;
        }
      }
    }
  }

  // Build updates, one per handler that changes the build

  /**
   * selectCase: sets the case; the motherboard, CPU and RAM are cleared
   * together, and only when there was a case before, there is a
   * motherboard, and the new case does not support its form factor.
   */
  function WithCase(prev: PCBuild, c: Case): (b: PCBuild)
    ensures b.pcCase == Some(c)
    ensures b.id == prev.id && b.name == prev.name
    ensures b.powerSupply == prev.powerSupply && b.graphicsCard == prev.graphicsCard
    ensures if prev.pcCase.Some? && prev.motherboard.Some? && !FitsCase(prev.motherboard.value, c)
            then b.motherboard.None? && b.cpu.None? && b.ram == []
            else b.motherboard == prev.motherboard && b.cpu == prev.cpu && b.ram == prev.ram
    ensures b.motherboard != prev.motherboard <==>
      prev.pcCase.Some? && prev.motherboard.Some? && !FitsCase(prev.motherboard.value, c)
    ensures SlotsRespected(prev) ==> SlotsRespected(b)
    ensures Compatible(prev) ==> Compatible(b)
  {
    var reset := prev.pcCase.Some? && prev.motherboard.Some? && !FitsCase(prev.motherboard.value, c);
    prev.(pcCase := Some(c),
          motherboard := if reset then None else prev.motherboard,
          cpu := if reset then None else prev.cpu,
          ram := if reset then [] else prev.ram)
  }

  /** selectMotherboard: sets the motherboard and always clears the CPU and the RAM. */
  function WithMotherboard(prev: PCBuild, mb: Motherboard): (b: PCBuild)
    ensures b.motherboard == Some(mb) && b.cpu.None? && b.ram == []
    ensures b.id == prev.id && b.name == prev.name && b.pcCase == prev.pcCase
    ensures b.powerSupply == prev.powerSupply && b.graphicsCard == prev.graphicsCard
    ensures SlotsRespected(b)
    ensures Compatible(prev) && prev.pcCase.Some? && FitsCase(mb, prev.pcCase.value) ==> Compatible(b)
  {
    prev.(motherboard := Some(mb), cpu := None, ram := [])
  }

  /** selectCPU: sets the CPU and nothing else. */
  function WithCpu(prev: PCBuild, cpu: Cpu): (b: PCBuild)
    ensures b.cpu == Some(cpu)
    ensures b.(cpu := prev.cpu) == prev
    ensures SlotsRespected(prev) ==> SlotsRespected(b)
    ensures Compatible(prev) && prev.motherboard.Some? && FitsSocket(cpu, prev.motherboard.value) ==> Compatible(b)
  {
    prev.(cpu := Some(cpu))
  }

  /** The filter callback of toggleRAM's removal: a module whose id differs from `id`. */
  function IdDiffers(id: string): Ram -> bool {
    (r: Ram) => r.Id() != id
  }

  /** Removing every module with a chosen id drops exactly those modules, keeps the rest as often as before and in order, and keeps ids unique. */
  lemma {:induction false} RemoveIdFacts(ram: seq<Ram>, id: string)
    requires HasId(ram, id)
    ensures !HasId(Filter(ram, IdDiffers(id)), id)
    ensures forall r :: r in Filter(ram, IdDiffers(id)) <==> r in ram && r.info.id != id
    ensures IsSubsequence(Filter(ram, IdDiffers(id)), ram)
    ensures |Filter(ram, IdDiffers(id))| < |ram|
    ensures forall r :: multiset(Filter(ram, IdDiffers(id)))[r] == if r.info.id == id then 0 else multiset(ram)[r]
    ensures UniqueIds(ram) ==> UniqueIds(Filter(ram, IdDiffers(id)))
  {
    var keep := IdDiffers(id);
    var kept := Filter(ram, keep);
    FilterCounts(ram, keep);
    var i :| 0 <= i < |ram| && ram[i].info.id == id;
    FilterShrinks(ram, keep, i);
    forall k | 0 <= k < |kept| ensures kept[k].info.id != id {
      assert kept[k] in kept;
    }
    if UniqueIds(ram) {
      FilterKeepsUniqueIds(ram, keep);
    }
  }

  /**
   * toggleRAM: a module whose id is already chosen is removed (every entry
   * with that id); otherwise it is appended while a slot is free, and the
   * build is unchanged when the slots are full.
   */
  function ToggledRam(prev: PCBuild, m: Ram): (b: PCBuild)
    ensures b.(ram := prev.ram) == prev
    ensures HasId(prev.ram, m.info.id) ==>
      && !HasId(b.ram, m.info.id)
      && (forall r :: r in b.ram <==> r in prev.ram && r.info.id != m.info.id)
      && IsSubsequence(b.ram, prev.ram)
      && |b.ram| < |prev.ram|
      && (forall r :: multiset(b.ram)[r] == if r.info.id == m.info.id then 0 else multiset(prev.ram)[r])
    ensures !HasId(prev.ram, m.info.id) && |prev.ram| < MaxSlots(prev) ==> b.ram == prev.ram + [m]
    ensures !HasId(prev.ram, m.info.id) && |prev.ram| >= MaxSlots(prev) ==> b == prev
    ensures SlotsRespected(prev) ==> SlotsRespected(b)
    ensures Compatible(prev) && prev.motherboard.Some? && FitsMemory(m, prev.motherboard.value) ==> Compatible(b)
  {
    if HasId(prev.ram, m.Id()) then
      var kept := Filter(prev.ram, IdDiffers(m.Id()));
      RemoveIdFacts(prev.ram, m.Id());
      prev.(ram := kept)
    else if |prev.ram| < MaxSlots(prev) then
      prev.(ram := prev.ram + [m])
    else
      prev
  }

  /** selectPowerSupply: sets the power supply and nothing else; the graphics card is kept. */
  function WithPowerSupply(prev: PCBuild, psu: PowerSupply): (b: PCBuild)
    ensures b.powerSupply == Some(psu)
    ensures b.(powerSupply := prev.powerSupply) == prev
    ensures SlotsRespected(prev) ==> SlotsRespected(b)
    ensures Compatible(prev) && prev.pcCase.Some? ==> Compatible(b)
  {
    prev.(powerSupply := Some(psu))
  }

  /** toggleGraphicsCard: the card with the chosen card's id is removed, any other card replaces it; there is never more than one. */
  function ToggledGraphicsCard(prev: PCBuild, gpu: GraphicsCard): (b: PCBuild)
    ensures b.(graphicsCard := prev.graphicsCard) == prev
    ensures prev.graphicsCard.Some? && prev.graphicsCard.value.info.id == gpu.info.id ==> b.graphicsCard.None?
    ensures !(prev.graphicsCard.Some? && prev.graphicsCard.value.info.id == gpu.info.id) ==> b.graphicsCard == Some(gpu)
    ensures SlotsRespected(prev) ==> SlotsRespected(b)
    ensures Compatible(prev) && prev.pcCase.Some? ==> Compatible(b)
  {
    var currentCards := if prev.graphicsCard.Some? then [prev.graphicsCard.value] else [];
    assert prev.graphicsCard.Some? ==> currentCards[0] == prev.graphicsCard.value;
    if HasId(currentCards, gpu.Id()) then prev.(graphicsCard := None) else prev.(graphicsCard := Some(gpu))
  }

  /** changeMotherboard: clears the motherboard, CPU, RAM, power supply and graphics card; only the case survives. */
  function WithoutMotherboard(prev: PCBuild): (b: PCBuild)
    ensures b.id == prev.id && b.name == prev.name && b.pcCase == prev.pcCase
    ensures b.motherboard.None? && b.cpu.None? && b.ram == [] && b.powerSupply.None? && b.graphicsCard.None?
    ensures SlotsRespected(b) && Compatible(b)
  {
    prev.(motherboard := None, cpu := None, ram := [], powerSupply := None, graphicsCard := None)
  }

  /** changeCPU: clears the CPU and nothing else. */
  function WithoutCpu(prev: PCBuild): (b: PCBuild)
    ensures b.cpu.None? && b.(cpu := prev.cpu) == prev
    ensures SlotsRespected(prev) ==> SlotsRespected(b)
    ensures Compatible(prev) ==> Compatible(b)
  {
    prev.(cpu := None)
  }

  /** changePSU: clears the power supply and nothing else. */
  function WithoutPowerSupply(prev: PCBuild): (b: PCBuild)
    ensures b.powerSupply.None? && b.(powerSupply := prev.powerSupply) == prev
    ensures SlotsRespected(prev) ==> SlotsRespected(b)
    ensures Compatible(prev) ==> Compatible(b)
  {
    prev.(powerSupply := None)
  }

  // Step navigation

  /** The step at position `k` of the wizard. */
  function StepAt(k: nat): (s: BuildStep)
    requires k < 7
    ensures s.Index() == k
  {
    if k == 0 then CaseStep
    else if k == 1 then MotherboardStep
    else if k == 2 then CpuStep
    else if k == 3 then RamStep
    else if k == 4 then PowerSupplyStep
    else if k == 5 then GraphicsCardStep
    else Complete
  }

  /** The selection a step is waiting for has been made (the graphics card is optional). */
  predicate Done(b: PCBuild, s: BuildStep) {
    match s
    case CaseStep => b.pcCase.Some?
    case MotherboardStep => b.motherboard.Some?
    case CpuStep => b.cpu.Some?
    case RamStep => |b.ram| > 0
    case PowerSupplyStep => b.powerSupply.Some?
    case GraphicsCardStep => true
    case Complete => false
  }

  /**
   * When goToStep moves: never to the completed step; to the motherboard
   * step once the case is chosen; to any later step once every step from
   * the motherboard up to it is done (the case itself is not re-checked).
   */
  predicate CanGoTo(b: PCBuild, target: BuildStep) {
    && target != Complete
    && forall k :: (if target == MotherboardStep then 0 else 1) <= k < target.Index() ==> Done(b, StepAt(k))
  }

  /** The gate spelled out step by step, as the page checks it. */
  lemma CanGoToChecks(b: PCBuild, target: BuildStep)
    ensures CanGoTo(b, target) <==>
      match target
      case CaseStep => true
      case MotherboardStep => b.pcCase.Some?
      case CpuStep => b.motherboard.Some?
      case RamStep => b.motherboard.Some? && b.cpu.Some?
      case PowerSupplyStep => b.motherboard.Some? && b.cpu.Some? && |b.ram| > 0
      case GraphicsCardStep => b.motherboard.Some? && b.cpu.Some? && |b.ram| > 0 && b.powerSupply.Some?
      case Complete => false
  {
    assert StepAt(0) == CaseStep && StepAt(1) == MotherboardStep && StepAt(2) == CpuStep;
    assert StepAt(3) == RamStep && StepAt(4) == PowerSupplyStep;
    var lo := if target == MotherboardStep then 0 else 1;
    if target != Complete && forall k :: lo <= k < target.Index() ==> Done(b, StepAt(k)) {
      if target.Index() > 1 { assert Done(b, StepAt(1)); }
      if target.Index() > 2 { assert Done(b, StepAt(2)); }
      if target.Index() > 3 { assert Done(b, StepAt(3)); }
      if target.Index() > 4 { assert Done(b, StepAt(4)); }
      if target == MotherboardStep { assert Done(b, StepAt(0)); }
    }
  }

  /** In a build where a motherboard implies a case, goToStep's gate is "every earlier step is done". */
  lemma CanGoToMeansEarlierStepsDone(b: PCBuild, target: BuildStep)
    requires b.motherboard.Some? ==> b.pcCase.Some?
    ensures CanGoTo(b, target) <==> target != Complete && forall k :: 0 <= k < target.Index() ==> Done(b, StepAt(k))
  {
    if CanGoTo(b, target) && target.Index() > 1 {
      assert Done(b, StepAt(1));
    }
  }

  // Serialisation

  /**
   * The id-only record of a build, or nothing unless the case, motherboard,
   * CPU and power supply are all chosen. `id` stands for the time-based id
   * the page generates.
   */
  function SerializeBuild(b: PCBuild, id: string): (r: Option<SavedBuild>)
    ensures r.Some? <==> b.pcCase.Some? && b.motherboard.Some? && b.cpu.Some? && b.powerSupply.Some?
    ensures r.Some? ==>
      && r.value.id == id && r.value.name == b.name && r.value.description.None?
      && r.value.caseId == b.pcCase.value.info.id
      && r.value.motherboardId == b.motherboard.value.info.id
      && r.value.cpuIds == [b.cpu.value.info.id]
      && r.value.ramIds == Ids(b.ram)
      && r.value.powerSupplyId == b.powerSupply.value.info.id
      && (r.value.graphicsCardIds.Some? <==> b.graphicsCard.Some?)
      && (b.graphicsCard.Some? ==> r.value.graphicsCardIds == Some([b.graphicsCard.value.info.id]))
  {
    if b.pcCase.None? || b.motherboard.None? || b.cpu.None? || b.powerSupply.None? then None
    else
      Some(SavedBuild(
        id, b.name, None,
        b.pcCase.value.Id(),
        b.motherboard.value.Id(),
        [b.cpu.value.Id()],
        Ids(b.ram),
        b.powerSupply.value.Id(),
        if b.graphicsCard.Some? then Some([b.graphicsCard.value.Id()]) else None))
  }

  // The page's state and handlers

  /**
   * The planner page's state: the build, the current step and the case
   * step's form-factor filter, over a fixed catalog. `Valid` holds after
   * any sequence of handler calls; each handler also keeps
   * `WizardInvariant` whenever the page offers it (its step panel or
   * sidebar button is showing and its part comes from the offered list).
   */
  class Planner {
    var build: PCBuild
    var step: BuildStep
    var selectedFormFactors: seq<FormFactor>
    const catalog: Catalog

    ghost predicate Valid()
      reads this
    {
      SlotsRespected(build)
    }

    constructor (catalog: Catalog)
      ensures Valid() && WizardInvariant(build, step)
      ensures build == InitialBuild && step == CaseStep && selectedFormFactors == []
      ensures this.catalog == catalog
    {
      build := InitialBuild;
      step := CaseStep;
      selectedFormFactors := [];
      this.catalog := catalog;
    }

    method SelectCase(pcCase: Case)
      requires Valid()
      modifies this`build, this`step
      ensures Valid()
      ensures build == WithCase(old(build), pcCase) && step == MotherboardStep
      ensures old(WizardInvariant(build, step)) ==> WizardInvariant(build, step)
    {
      build := WithCase(build, pcCase);
      step := MotherboardStep;
    }

    method ChangeCase()
      requires Valid()
      modifies this`step
      ensures Valid()
      ensures build == old(build) && step == CaseStep
      ensures old(WizardInvariant(build, step)) ==> WizardInvariant(build, step)
    {
      step := CaseStep;
    }

    method SelectMotherboard(motherboard: Motherboard)
      requires Valid()
      modifies this`build, this`step
      ensures Valid()
      ensures build == WithMotherboard(old(build), motherboard) && step == CpuStep
      ensures old(WizardInvariant(build, step)) && old(step) == MotherboardStep
              && motherboard in AvailableMotherboards(old(build).pcCase, catalog.motherboards)
              ==> WizardInvariant(build, step)
    {
      build := WithMotherboard(build, motherboard);
      step := CpuStep;
    }

    method SelectCpu(cpu: Cpu)
      requires Valid()
      modifies this`build, this`step
      ensures Valid()
      ensures build == WithCpu(old(build), cpu) && step == RamStep
      ensures old(WizardInvariant(build, step)) && old(step) == CpuStep
              && cpu in CompatibleCpus(old(build).motherboard, catalog.cpus)
              ==> WizardInvariant(build, step)
    {
      build := WithCpu(build, cpu);
      step := RamStep;
    }

    method ToggleRam(ramModule: Ram)
      requires Valid()
      modifies this`build
      ensures Valid()
      ensures build == ToggledRam(old(build), ramModule) && step == old(step)
      ensures old(WizardInvariant(build, step)) && ramModule in CompatibleRam(old(build).motherboard, catalog.ram)
              ==> WizardInvariant(build, step)
    {
      build := ToggledRam(build, ramModule);
    }

    method ProceedToPowerSupply()
      requires Valid()
      modifies this`step
      ensures Valid()
      ensures build == old(build) && step == PowerSupplyStep
      ensures old(WizardInvariant(build, step)) && |build.ram| > 0 ==> WizardInvariant(build, step)
    {
      assert |build.ram| > 0 ==> build.ram[0] in build.ram;
      step := PowerSupplyStep;
    }

    method SelectPowerSupply(psu: PowerSupply)
      requires Valid()
      modifies this`build, this`step
      ensures Valid()
      ensures build == WithPowerSupply(old(build), psu) && step == GraphicsCardStep
      ensures old(WizardInvariant(build, step)) && old(step) == PowerSupplyStep ==> WizardInvariant(build, step)
    {
      build := WithPowerSupply(build, psu);
      step := GraphicsCardStep;
    }

    method ToggleGraphicsCard(gpu: GraphicsCard)
      requires Valid()
      modifies this`build
      ensures Valid()
      ensures build == ToggledGraphicsCard(old(build), gpu) && step == old(step)
      ensures old(WizardInvariant(build, step)) && step == GraphicsCardStep ==> WizardInvariant(build, step)
    {
      build := ToggledGraphicsCard(build, gpu);
    }

    method FinishBuild()
      requires Valid()
      modifies this`step
      ensures Valid()
      ensures build == old(build) && step == Complete
      ensures old(WizardInvariant(build, step)) && old(step) == GraphicsCardStep ==> WizardInvariant(build, step)
    {
      step := Complete;
    }

    method StartOver()
      modifies this`build, this`step, this`selectedFormFactors
      ensures Valid() && WizardInvariant(build, step)
      ensures build == InitialBuild && step == CaseStep && selectedFormFactors == []
    {
      build := InitialBuild;
      selectedFormFactors := [];
      step := CaseStep;
    }

    method ChangeMotherboard()
      modifies this`build, this`step
      ensures Valid()
      ensures build == WithoutMotherboard(old(build)) && step == MotherboardStep
      ensures old(WizardInvariant(build, step)) && old(build).motherboard.Some? ==> WizardInvariant(build, step)
    {
      build := WithoutMotherboard(build);
      step := MotherboardStep;
    }

    method ChangeCpu()
      requires Valid()
      modifies this`build, this`step
      ensures Valid()
      ensures build == WithoutCpu(old(build)) && step == CpuStep
      ensures old(WizardInvariant(build, step)) && old(build).cpu.Some? ==> WizardInvariant(build, step)
    {
      build := WithoutCpu(build);
      step := CpuStep;
    }

    method ChangeRam()
      requires Valid()
      modifies this`step
      ensures Valid()
      ensures build == old(build) && step == RamStep
      ensures old(WizardInvariant(build, step)) && |build.ram| > 0 ==> WizardInvariant(build, step)
    {
      assert |build.ram| > 0 ==> build.ram[0] in build.ram;
      step := RamStep;
    }

    method ChangePowerSupply()
      requires Valid()
      modifies this`build, this`step
      ensures Valid()
      ensures build == WithoutPowerSupply(old(build)) && step == PowerSupplyStep
      ensures old(WizardInvariant(build, step)) && old(build).powerSupply.Some? ==> WizardInvariant(build, step)
    {
      build := WithoutPowerSupply(build);
      step := PowerSupplyStep;
    }

    method ChangeGraphicsCard()
      requires Valid()
      modifies this`step
      ensures Valid()
      ensures build == old(build) && step == GraphicsCardStep
      ensures old(WizardInvariant(build, step)) && build.graphicsCard.Some? ==> WizardInvariant(build, step)
    {
      step := GraphicsCardStep;
    }

    /** Jumps to `target` when its prerequisites hold; never changes the build and never reaches the completed step. */
    method GoToStep(target: BuildStep)
      requires Valid()
      modifies this`step
      ensures Valid()
      ensures build == old(build)
      ensures step == (if CanGoTo(build, target) then target else old(step))
      ensures step != Complete || old(step) == Complete
      ensures old(WizardInvariant(build, step)) ==> WizardInvariant(build, step)
    {
      CanGoToChecks(build, target);
      if target == CaseStep {
        step := CaseStep;
      } else if target == MotherboardStep && build.pcCase.Some? {
        step := MotherboardStep;
      } else if target == CpuStep && build.motherboard.Some? {
        step := CpuStep;
      } else if target == RamStep && build.motherboard.Some? && build.cpu.Some? {
        step := RamStep;
      } else if target == PowerSupplyStep && build.motherboard.Some? && build.cpu.Some? && |build.ram| > 0 {
        step := PowerSupplyStep;
      } else if target == GraphicsCardStep && build.motherboard.Some? && build.cpu.Some? && |build.ram| > 0
                && build.powerSupply.Some? {
        step := GraphicsCardStep;
      }
    }

    /** The quick filter's callback on the case step. */
    method SetSelectedFormFactors(formFactors: seq<FormFactor>)
      requires Valid()
      modifies this`selectedFormFactors
      ensures Valid()
      ensures selectedFormFactors == formFactors && build == old(build) && step == old(step)
    {
      selectedFormFactors := formFactors;
    }
  }
}
