/**
 * The part, build and saved-build records of the catalog, the CPU socket
 * families and the socket classification used to colour parts.
 */
module PartTypes {
  import opened Wrappers

  /** The Intel socket family, in catalog order. */
  const IntelSockets: seq<string> := [
    "PGA168", "Slot 1", "Socket 370", "Socket 423", "Socket 478", "LGA 775",
    "LGA 1366", "LGA 1156", "LGA 1155", "LGA 2011", "LGA 1150", "LGA 1151-1",
    "LGA 1151-2", "LGA 1200", "LGA 1700", "LGA 1851"
  ]

  /** The AMD socket family, in catalog order. */
  const AmdSockets: seq<string> := [
    "Socket A", "Socket 754", "Socket 940", "Socket 939", "Socket AM2", "Socket AM2+",
    "Socket AM3", "Socket FM1", "Socket AM3+", "Socket FM2", "Socket FM2+", "Socket AM1",
    "Socket AM4", "Socket AM5"
  ]

  /** A socket name from either family; CPUs and motherboards match on exact equality of it. */
  type CpuSocket = s: string | s in IntelSockets || s in AmdSockets witness "LGA 775"

  datatype FormFactor = ATX | MicroATX | MiniITX

  /** The motherboard form factors offered by the case step's quick filter. */
  const MotherboardFormFactors: seq<FormFactor> := [ATX, MicroATX, MiniITX]

  datatype MemoryType = SDR | DDR | DDR2 | DDR3 | DDR4 | DDR5

  datatype MemoryFormFactor = DIMM | SODIMM

  datatype GpuInterface = PCI | AGP33V | AGP15V | AGP08V | PCIe10 | PCIe20 | PCIe30 | PCIe40

  datatype Condition = Working | Defective

  /** The fields every part shares. */
  datatype PartInfo = PartInfo(
    id: string,
    name: string,
    brand: string,
    description: string,
    releaseYear: Option<int>,
    datasheet: Option<string>,
    condition: Option<Condition>)

  /** A part: the shared fields plus the fields `S` of its kind. */
  datatype Part<S> = Part(info: PartInfo, spec: S) {
    function Id(): string { info.id }
  }

  datatype CpuSpec = CpuSpec(cores: nat, threads: nat, socket: CpuSocket, tdp: nat)

  datatype MotherboardSpec = MotherboardSpec(
    socket: CpuSocket,
    formFactor: FormFactor,
    chipset: string,
    memorySlots: nat,
    memoryTypes: seq<MemoryType>,
    maxMemory: nat,
    pcieSlots: nat)

  datatype PowerSupplySpec = PowerSupplySpec(wattage: nat, efficiency: string, modular: bool, formFactor: string)

  datatype GraphicsCardSpec = GraphicsCardSpec(
    memory: nat,
    memoryType: string,
    coreClock: nat,
    boostClock: nat,
    powerConsumption: nat,
    gpuInterface: GpuInterface)

  datatype RamSpec = RamSpec(
    capacity: nat,
    memoryType: MemoryType,
    speed: nat,
    timings: Option<string>,
    formFactor: MemoryFormFactor)

  datatype CaseSpec = CaseSpec(
    supportedFormFactors: seq<FormFactor>,
    external525Drives: nat,
    external35Drives: nat,
    glassPanel: bool)

  type Cpu = Part<CpuSpec>
  type Motherboard = Part<MotherboardSpec>
  type PowerSupply = Part<PowerSupplySpec>
  type GraphicsCard = Part<GraphicsCardSpec>
  type Ram = Part<RamSpec>
  type Case = Part<CaseSpec>

  datatype PartType = CpuKind | MotherboardKind | PowerSupplyKind | GraphicsCardKind | RamKind | CaseKind {
    /** The key of this kind in the catalog object and in the page route. */
    function Key(): string {
      match this
      case CpuKind => "cpu"
      case MotherboardKind => "motherboard"
      case PowerSupplyKind => "powerSupply"
      case GraphicsCardKind => "graphicsCard"
      case RamKind => "ram"
      case CaseKind => "case"
    }

    /** The plural heading shown for this kind. */
    function Label(): string {
      match this
      case CpuKind => "CPUs"
      case MotherboardKind => "Motherboards"
      case PowerSupplyKind => "Power Supplies"
      case GraphicsCardKind => "Graphics Cards"
      case RamKind => "RAM"
      case CaseKind => "Cases"
    }
  }

  /** Different kinds have different keys. */
  lemma KeyInjective(a: PartType, b: PartType)
    ensures a.Key() == b.Key() ==> a == b
  {
  }

  /**
   * A build under construction: every part is optional except the RAM
   * list, which is always present and may be empty.
   */
  datatype PCBuild = PCBuild(
    id: string,
    name: string,
    pcCase: Option<Case>,
    motherboard: Option<Motherboard>,
    cpu: Option<Cpu>,
    ram: seq<Ram>,
    powerSupply: Option<PowerSupply>,
    graphicsCard: Option<GraphicsCard>)

  /** The wizard steps, in the order the planner walks them. */
  datatype BuildStep = CaseStep | MotherboardStep | CpuStep | RamStep | PowerSupplyStep | GraphicsCardStep | Complete {
    function Index(): nat {
      match this
      case CaseStep => 0
      case MotherboardStep => 1
      case CpuStep => 2
      case RamStep => 3
      case PowerSupplyStep => 4
      case GraphicsCardStep => 5
      case Complete => 6
    }
  }

  /**
   * A build as it is shared: ids only. The CPU and RAM id lists are
   * required, the graphics card id list and the description are optional.
   */
  datatype SavedBuild = SavedBuild(
    id: string,
    name: string,
    description: Option<string>,
    caseId: string,
    motherboardId: string,
    cpuIds: seq<string>,
    ramIds: seq<string>,
    powerSupplyId: string,
    graphicsCardIds: Option<seq<string>>)

  /** The part lists the data files export, one per kind. */
  datatype Catalog = Catalog(
    cases: seq<Case>,
    motherboards: seq<Motherboard>,
    cpus: seq<Cpu>,
    ram: seq<Ram>,
    powerSupplies: seq<PowerSupply>,
    graphicsCards: seq<GraphicsCard>)

  /** The ids of `parts`, in order (`parts.map(p => p.id)`). */
  function Ids<S>(parts: seq<Part<S>>): (r: seq<string>)
    ensures |r| == |parts|
    ensures forall i :: 0 <= i < |parts| ==> r[i] == parts[i].info.id
  {
    seq(|parts|, i requires 0 <= i < |parts| => parts[i].Id())
  }

  /** No two parts of the list share an id. */
  predicate UniqueIds<S>(parts: seq<Part<S>>) {
    forall i, j :: 0 <= i < j < |parts| ==> parts[i].info.id != parts[j].info.id
  }

  /** Some part of the list has id `id` (`list.some(p => p.id === id)`). */
  predicate HasId<S>(parts: seq<Part<S>>, id: string) {
    exists i :: 0 <= i < |parts| && parts[i].info.id == id
  }

  predicate IsIntelSocket(socket: string) {
    socket in IntelSockets
  }

  predicate IsAmdSocket(socket: string) {
    socket in AmdSockets
  }

  datatype SocketColor = Intel | Amd | Unknown

  /** No socket name belongs to both families. */
  lemma SocketFamiliesDisjoint(socket: string)
    ensures !(IsIntelSocket(socket) && IsAmdSocket(socket))
  {
  }

  /** The colour a socket badge is drawn in: its family, or unknown. */
  function GetSocketColor(socket: string): (r: SocketColor)
    ensures r == Intel <==> socket in IntelSockets
    ensures r == Amd <==> socket in AmdSockets
    ensures r == Unknown <==> socket !in IntelSockets && socket !in AmdSockets
  {
    SocketFamiliesDisjoint(socket);
    if IsIntelSocket(socket) then Intel
    else if IsAmdSocket(socket) then Amd
    else Unknown
  }

  /** A well-typed socket always has a family colour. */
  lemma CpuSocketHasColor(socket: CpuSocket)
    ensures GetSocketColor(socket) != Unknown
  {
  }
}
