/**
 * Concrete runs of the build planner: the slot limit, the case cascade,
 * the step gate from a fresh planner, graphics-card replacement, a short
 * select/toggle walk, and a walk that reaches the completed step without a
 * CPU, after which the build cannot be serialised.
 */
module PlannerScenarios {
  import opened Wrappers
  import opened PartTypes
  import opened BuildPlanner

  function Info(id: string): PartInfo {
    PartInfo(id, id, "", "", None, None, None)
  }

  function Board(id: string, socket: CpuSocket, formFactor: FormFactor, slots: nat, memoryTypes: seq<MemoryType>): Motherboard {
    Part(Info(id), MotherboardSpec(socket, formFactor, "", slots, memoryTypes, 0, 0))
  }

  function Processor(id: string, socket: CpuSocket): Cpu {
    Part(Info(id), CpuSpec(4, 4, socket, 65))
  }

  function Module(id: string, memoryType: MemoryType): Ram {
    Part(Info(id), RamSpec(8, memoryType, 1600, None, DIMM))
  }

  function Chassis(id: string, formFactors: seq<FormFactor>): Case {
    Part(Info(id), CaseSpec(formFactors, 0, 0, false))
  }

  function Card(id: string): GraphicsCard {
    Part(Info(id), GraphicsCardSpec(2048, "GDDR5", 1000, 1100, 150, PCIe30))
  }

  function Supply(id: string): PowerSupply {
    Part(Info(id), PowerSupplySpec(500, "80+ Bronze", false, "ATX"))
  }

  const EmptyCatalog := Catalog([], [], [], [], [], [])

  /** Socket matching is exact: two Intel sockets of the same family name still do not fit each other. */
  lemma SocketExactness()
    ensures IsIntelSocket("LGA 1151-1") && IsIntelSocket("LGA 1151-2")
    ensures !FitsSocket(Processor("c", "LGA 1151-1"), Board("m", "LGA 1151-2", ATX, 2, [DDR4]))
  {
  }

  /** A planner on the CPU step with a two-slot DDR3 motherboard and no modules yet. */
  method TwoSlotPlanner() returns (p: Planner)
    ensures fresh(p) && p.Valid()
    ensures p.build.ram == [] && MaxSlots(p.build) == 2
  {
    p := new Planner(EmptyCatalog);
    p.SelectCase(Chassis("case", [ATX]));
    p.SelectMotherboard(Board("mb", "Socket AM3", ATX, 2, [DDR3]));
  }

  /** On the two-slot planner, toggling two distinct modules adds both, in order. */
  method TwoSlotsFilled() returns (p: Planner)
    ensures fresh(p) && p.Valid()
    ensures p.build.ram == [Module("r1", DDR3), Module("r2", DDR3)] && MaxSlots(p.build) == 2
  {
    p := TwoSlotPlanner();
    p.ToggleRam(Module("r1", DDR3));
    assert p.build.ram == [Module("r1", DDR3)] && MaxSlots(p.build) == 2;
    assert !HasId(p.build.ram, "r2") by {
      assert p.build.ram[0].info.id == "r1";
    }
    p.ToggleRam(Module("r2", DDR3));
  }

  /** With two slots, toggling three distinct modules keeps the first two; the third toggle does nothing. */
  method SlotLimit() returns (p: Planner)
    ensures p.build.ram == [Module("r1", DDR3), Module("r2", DDR3)]
  {
    p := TwoSlotsFilled();
    ghost var full := [Module("r1", DDR3), Module("r2", DDR3)];
    assert !HasId(p.build.ram, "r3") by {
      assert full[0].info.id == "r1" && full[1].info.id == "r2";
    }
    ghost var before := p.build;
    p.ToggleRam(Module("r3", DDR3));
    assert p.build == before;
  }

  /** A case without the motherboard's form factor clears the motherboard, the CPU and the RAM together. */
  method CaseCascade() returns (p: Planner)
    ensures p.build.pcCase == Some(Chassis("small", [MicroATX]))
    ensures p.build.motherboard.None? && p.build.cpu.None? && p.build.ram == []
    ensures p.step == MotherboardStep
  {
    p := TowerWithRam();
    p.SelectCase(Chassis("small", [MicroATX]));
  }

  /** A tower case with an ATX motherboard, a CPU and one module: the state the cascade starts from. */
  method TowerWithRam() returns (p: Planner)
    ensures fresh(p) && p.Valid()
    ensures p.build.pcCase == Some(Chassis("tower", [ATX, MicroATX]))
    ensures p.build.motherboard == Some(Board("mb", "Socket AM4", ATX, 4, [DDR4]))
    ensures p.build.cpu.Some? && p.build.ram != []
  {
    p := new Planner(EmptyCatalog);
    p.SelectCase(Chassis("tower", [ATX, MicroATX]));
    p.SelectMotherboard(Board("mb", "Socket AM4", ATX, 4, [DDR4]));
    p.SelectCpu(Processor("cpu", "Socket AM4"));
    p.ToggleRam(Module("r1", DDR4));
  }

  /** From a fresh planner, going to the RAM step is refused and the planner stays on the case step. */
  method RamStepGated() returns (p: Planner)
    ensures p.step == CaseStep && p.build == InitialBuild
  {
    p := new Planner(EmptyCatalog);
    p.GoToStep(RamStep);
  }

  /** Toggling card A and then a different card B leaves B alone. */
  method GraphicsCardReplaced() returns (p: Planner)
    ensures p.build.graphicsCard == Some(Card("gpu-b"))
  {
    p := new Planner(EmptyCatalog);
    p.ToggleGraphicsCard(Card("gpu-a"));
    p.ToggleGraphicsCard(Card("gpu-b"));
  }

  /** Motherboard, then CPU, then the same module toggled on and off again. */
  method SelectAndToggle() returns (p: Planner, steps: seq<BuildStep>, rams: seq<seq<Ram>>)
    ensures steps == [CpuStep, RamStep]
    ensures rams == [[Module("ram-9", DDR3)], []]
  {
    p := new Planner(EmptyCatalog);
    p.SelectMotherboard(Board("mb-1", "Socket FM2", ATX, 2, [DDR3]));
    steps := [p.step];
    p.SelectCpu(Processor("cpu-2", "Socket FM2"));
    steps := steps + [p.step];
    p.ToggleRam(Module("ram-9", DDR3));
    assert p.build.ram == [Module("ram-9", DDR3)];
    rams := [p.build.ram];
    assert p.build.ram[0].info.id == "ram-9";
    p.ToggleRam(Module("ram-9", DDR3));
    assert |p.build.ram| == 0;
    rams := rams + [p.build.ram];
  }

  /** A one-of-each catalog whose parts all fit together. */
  const SmallCatalog := Catalog(
    [Chassis("case", [ATX])],
    [Board("mb", "LGA 1700", ATX, 2, [DDR5])],
    [Processor("cpu", "LGA 1700")],
    [Module("ram", DDR5)],
    [Supply("psu")],
    [])

  /** The small catalog's case and motherboard, each picked from the list the page offers. */
  method SmallBoardChosen() returns (p: Planner)
    ensures fresh(p) && p.Valid() && p.catalog == SmallCatalog
    ensures WizardInvariant(p.build, p.step) && p.step == CpuStep
    ensures p.build.motherboard == Some(SmallCatalog.motherboards[0]) && p.build.ram == []
  {
    p := new Planner(SmallCatalog);
    var c := SmallCatalog;
    p.SelectCase(c.cases[0]);
    assert c.motherboards[0] in AvailableMotherboards(p.build.pcCase, c.motherboards);
    p.SelectMotherboard(c.motherboards[0]);
  }

  /** Then the small catalog's CPU and module, each picked from the list the page offers. */
  method SmallBuildWithRam() returns (p: Planner)
    ensures fresh(p) && p.Valid() && p.catalog == SmallCatalog
    ensures WizardInvariant(p.build, p.step) && p.step == RamStep
    ensures p.build.cpu.Some? && p.build.ram == [SmallCatalog.ram[0]]
  {
    p := SmallBoardChosen();
    var c := SmallCatalog;
    assert c.cpus[0] in CompatibleCpus(p.build.motherboard, c.cpus);
    p.SelectCpu(c.cpus[0]);
    assert c.ram[0] in CompatibleRam(p.build.motherboard, c.ram);
    p.ToggleRam(c.ram[0]);
  }

  /**
   * The sidebar's "change CPU" clears the CPU, and the buttons the page
   * then shows, each with a part from the list it offers, still lead to
   * the completed step, where the build has no CPU and serialising it
   * gives nothing.
   */
  method CompleteWithoutCpu() returns (p: Planner)
    ensures p.step == Complete && p.build.cpu.None?
    ensures WizardInvariant(p.build, p.step)
    ensures SerializeBuild(p.build, "saved").None?
  {
    p := SmallBuildWithRam();
    p.ChangeCpu();
    p.ChangeRam();
    p.ProceedToPowerSupply();
    p.SelectPowerSupply(SmallCatalog.powerSupplies[0]);
    p.FinishBuild();
  }
}
