/**
 * The `allParts` object the catalog pages read: one entry per part kind,
 * holding that kind's parts, in declaration order. It has no entry for
 * cases, which live in a separate list.
 */
module CatalogTable {
  import opened Wrappers
  import opened PartTypes

  /** The kind-specific fields of a part of any kind. */
  datatype PartDetails =
    | CpuDetails(cpu: CpuSpec)
    | MotherboardDetails(motherboard: MotherboardSpec)
    | PowerSupplyDetails(powerSupply: PowerSupplySpec)
    | GraphicsCardDetails(graphicsCard: GraphicsCardSpec)
    | RamDetails(ram: RamSpec)
    | CaseDetails(pcCase: CaseSpec)

  /** A part whose kind is known only at run time. */
  type AnyPart = Part<PartDetails>

  /** One `[key, parts]` entry of the table. */
  datatype Entry = Entry(partType: PartType, parts: seq<AnyPart>)

  /** The same parts with their kind-specific fields wrapped. */
  function Erase<S>(parts: seq<Part<S>>, wrap: S -> PartDetails): (r: seq<AnyPart>)
    ensures |r| == |parts|
    ensures forall i :: 0 <= i < |parts| ==> r[i].info == parts[i].info && r[i].spec == wrap(parts[i].spec)
  {
    seq(|parts|, i requires 0 <= i < |parts| => Part(parts[i].info, wrap(parts[i].spec)))
  }

  /** The entries of `allParts` over a catalog: CPUs, motherboards, power supplies, graphics cards and RAM. */
  function AllParts(c: Catalog): (t: seq<Entry>)
    ensures |t| == 5
    ensures forall i :: 0 <= i < |t| ==> t[i].partType != CaseKind
    ensures forall i, j :: 0 <= i < j < |t| ==> t[i].partType != t[j].partType
    ensures forall k: PartType :: k != CaseKind ==> KindPosition(k) < |t| && t[KindPosition(k)].partType == k
  {
    var t := [
      Entry(CpuKind, Erase(c.cpus, (s: CpuSpec) => CpuDetails(s))),
      Entry(MotherboardKind, Erase(c.motherboards, (s: MotherboardSpec) => MotherboardDetails(s))),
      Entry(PowerSupplyKind, Erase(c.powerSupplies, (s: PowerSupplySpec) => PowerSupplyDetails(s))),
      Entry(GraphicsCardKind, Erase(c.graphicsCards, (s: GraphicsCardSpec) => GraphicsCardDetails(s))),
      Entry(RamKind, Erase(c.ram, (s: RamSpec) => RamDetails(s)))];
    t
  }

  /** Where each kind other than cases sits in `AllParts`. */
  function KindPosition(k: PartType): nat {
    match k
    case CpuKind => 0
    case MotherboardKind => 1
    case PowerSupplyKind => 2
    case GraphicsCardKind => 3
    case RamKind => 4
    case CaseKind => 0
  }

  /** `allParts[key]`: the parts of the first entry whose key is `key`, if any. */
  function Lookup(table: seq<Entry>, key: string): (r: Option<seq<AnyPart>>)
    ensures r.None? <==> forall i :: 0 <= i < |table| ==> table[i].partType.Key() != key
    ensures r.Some? ==> exists i :: 0 <= i < |table| && table[i].partType.Key() == key && r.value == table[i].parts
  {
    if table == [] then None
    else if table[0].partType.Key() == key then Some(table[0].parts)
    else
      var r := Lookup(table[1..], key);
      assert forall i :: 1 <= i < |table| ==> table[i] == table[1..][i - 1];
      r
  }
}
