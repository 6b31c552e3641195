/**
 * The saved-builds page: id lookup tables over the catalog, and the
 * resolution of each saved build's ids back into part records, silently
 * dropping ids the catalog does not know.
 */
module SavedBuilds {
  import opened Wrappers
  import opened PartTypes
  import BuildPlanner

  /**
   * The lookup table of a part list keyed by id, built like a JavaScript
   * `Map` from `[id, part]` pairs: a later part replaces an earlier one
   * with the same id.
   */
  function IndexById<S>(parts: seq<Part<S>>): (m: map<string, Part<S>>)
    ensures forall id :: id in m <==> HasId(parts, id)
    ensures forall id :: id in m ==> m[id].info.id == id
  {
    if parts == [] then map[]
    else
      var init := parts[..|parts| - 1];
      var last := parts[|parts| - 1];
      assert forall i :: 0 <= i < |init| ==> init[i] == parts[i];
      assert forall id :: HasId(parts, id) <==> HasId(init, id) || last.info.id == id by {
        forall id | HasId(parts, id) ensures HasId(init, id) || last.info.id == id {
          var i :| 0 <= i < |parts| && parts[i].info.id == id;
          if i < |init| { assert init[i].info.id == id; }
        }
      }
      IndexById(init)[last.Id() := last]
  }

  /**
   * The table holds, under a part's id, the last part of the list with
   * that id: a part no later part shares its id with is found under it.
   */
  lemma {:induction false} IndexLastWins<S>(parts: seq<Part<S>>, i: nat)
    requires i < |parts|
    requires forall j :: i < j < |parts| ==> parts[j].info.id != parts[i].info.id
    ensures Get(IndexById(parts), parts[i].info.id) == Some(parts[i])
  {
    var init := parts[..|parts| - 1];
    if i < |parts| - 1 {
      assert init[i] == parts[i];
      forall j | i < j < |init| ensures init[j].info.id != init[i].info.id {
        assert init[j] == parts[j];
      }
      IndexLastWins(init, i);
    }
  }

  /** The page's lookup tables, one per part kind. */
  datatype ComponentMaps = ComponentMaps(
    cases: map<string, Case>,
    motherboards: map<string, Motherboard>,
    cpus: map<string, Cpu>,
    ram: map<string, Ram>,
    powerSupplies: map<string, PowerSupply>,
    graphicsCards: map<string, GraphicsCard>)

  function BuildComponentMaps(c: Catalog): ComponentMaps {
    ComponentMaps(
      IndexById(c.cases), IndexById(c.motherboards), IndexById(c.cpus),
      IndexById(c.ram), IndexById(c.powerSupplies), IndexById(c.graphicsCards))
  }

  /** `Map.get`: the entry, or nothing for an unknown key. */
  function Get<V>(m: map<string, V>, key: string): Option<V> {
    if key in m then Some(m[key]) else None
  }

  /**
   * The parts the ids name, in the order of the ids, with every id that is
   * not in the table silently left out.
   */
  function ResolveIds<S>(ids: seq<string>, m: map<string, Part<S>>): (r: seq<Part<S>>)
    ensures |r| <= |ids|
    ensures (forall id :: id in ids ==> id in m) ==> |r| == |ids| && forall i :: 0 <= i < |ids| ==> r[i] == m[ids[i]]
    ensures (forall id :: id in ids ==> id !in m) ==> r == []
  {
    if ids == [] then []
    else
      assert forall id :: id in ids[1..] ==> id in ids;
      var head := if ids[0] in m then [m[ids[0]]] else [];
      head + ResolveIds(ids[1..], m)
  }

  /** Resolution works id by id: resolving a concatenation concatenates the results. */
  lemma {:induction false} ResolveIdsConcat<S>(a: seq<string>, b: seq<string>, m: map<string, Part<S>>)
    ensures ResolveIds(a + b, m) == ResolveIds(a, m) + ResolveIds(b, m)
  {
    if a == [] {
      assert a + b == b;
    } else {
      assert (a + b)[0] == a[0];
      assert (a + b)[1..] == a[1..] + b;
      ResolveIdsConcat(a[1..], b, m);
    }
  }

  /** An id the table does not know is dropped without a trace: the result is as if it had not been listed. */
  lemma ResolveSkipsUnknown<S>(ids: seq<string>, m: map<string, Part<S>>, k: nat)
    requires k < |ids| && ids[k] !in m
    ensures ResolveIds(ids, m) == ResolveIds(ids[..k] + ids[k + 1..], m)
  {
    assert ids == ids[..k] + ([ids[k]] + ids[k + 1..]);
    ResolveIdsConcat(ids[..k], [ids[k]] + ids[k + 1..], m);
    ResolveIdsConcat([ids[k]], ids[k + 1..], m);
    ResolveIdsConcat(ids[..k], ids[k + 1..], m);
  }

  /** A saved build with its ids replaced by the parts they name. */
  datatype ResolvedBuild = ResolvedBuild(
    id: string,
    name: string,
    description: Option<string>,
    pcCase: Option<Case>,
    motherboard: Option<Motherboard>,
    cpus: seq<Cpu>,
    ram: seq<Ram>,
    powerSupply: Option<PowerSupply>,
    graphicsCards: seq<GraphicsCard>)

  /**
   * Resolves one saved build: id, name and description are copied; an
   * unknown case, motherboard or power supply id becomes absent; the id
   * lists keep their known ids in order; a missing graphics card list
   * resolves to no cards.
   */
  function ResolveBuild(b: SavedBuild, maps: ComponentMaps): (r: ResolvedBuild)
    ensures r.id == b.id && r.name == b.name && r.description == b.description
    ensures r.pcCase == Get(maps.cases, b.caseId)
    ensures r.motherboard == Get(maps.motherboards, b.motherboardId)
    ensures r.powerSupply == Get(maps.powerSupplies, b.powerSupplyId)
    ensures r.cpus == ResolveIds(b.cpuIds, maps.cpus)
    ensures r.ram == ResolveIds(b.ramIds, maps.ram)
    ensures b.graphicsCardIds.None? ==> r.graphicsCards == []
    ensures b.graphicsCardIds.Some? ==> r.graphicsCards == ResolveIds(b.graphicsCardIds.value, maps.graphicsCards)
  {
    ResolvedBuild(
      b.id, b.name, b.description,
      Get(maps.cases, b.caseId),
      Get(maps.motherboards, b.motherboardId),
      ResolveIds(b.cpuIds, maps.cpus),
      ResolveIds(b.ramIds, maps.ram),
      Get(maps.powerSupplies, b.powerSupplyId),
      ResolveIds(b.graphicsCardIds.GetOr([]), maps.graphicsCards))
  }

  /** Every saved build resolved, one result per saved build and in the same order. */
  function ResolveBuilds(builds: seq<SavedBuild>, maps: ComponentMaps): (r: seq<ResolvedBuild>)
    ensures |r| == |builds|
    ensures forall i :: 0 <= i < |builds| ==> r[i].id == builds[i].id && r[i] == ResolveBuild(builds[i], maps)
  {
    seq(|builds|, i requires 0 <= i < |builds| => ResolveBuild(builds[i], maps))
  }

  /** With unique ids, every part of a list is found under its own id. */
  lemma IndexFindsPart<S>(parts: seq<Part<S>>, p: Part<S>)
    requires UniqueIds(parts)
    requires p in parts
    ensures Get(IndexById(parts), p.info.id) == Some(p)
  {
    var i :| 0 <= i < |parts| && parts[i] == p;
    IndexLastWins(parts, i);
  }

  /** With unique ids, every part taken from the list is found under its own id. */
  lemma IndexFindsParts<S>(parts: seq<Part<S>>, all: seq<Part<S>>)
    requires UniqueIds(all)
    requires forall k :: 0 <= k < |parts| ==> parts[k] in all
    ensures forall k :: 0 <= k < |parts| ==> Get(IndexById(all), parts[k].info.id) == Some(parts[k])
  {
    forall k | 0 <= k < |parts| ensures Get(IndexById(all), parts[k].info.id) == Some(parts[k]) {
      IndexFindsPart(all, parts[k]);
    }
  }

  /** Resolving the ids of parts that the table holds under their ids gives back the parts. */
  lemma ResolveIdsOfParts<S>(parts: seq<Part<S>>, m: map<string, Part<S>>)
    requires forall k :: 0 <= k < |parts| ==> Get(m, parts[k].info.id) == Some(parts[k])
    ensures ResolveIds(Ids(parts), m) == parts
  {
    var ids := Ids(parts);
    forall id | id in ids ensures id in m {
      var k :| 0 <= k < |ids| && ids[k] == id;
      assert Get(m, parts[k].info.id).Some?;
    }
  }

  predicate CatalogIdsUnique(c: Catalog) {
    && UniqueIds(c.cases) && UniqueIds(c.motherboards) && UniqueIds(c.cpus)
    && UniqueIds(c.ram) && UniqueIds(c.powerSupplies) && UniqueIds(c.graphicsCards)
  }

  /** Every part of the build is a catalog part. */
  ghost predicate FromCatalog(b: PCBuild, c: Catalog) {
    && (b.pcCase.Some? ==> b.pcCase.value in c.cases)
    && (b.motherboard.Some? ==> b.motherboard.value in c.motherboards)
    && (b.cpu.Some? ==> b.cpu.value in c.cpus)
    && (forall m :: m in b.ram ==> m in c.ram)
    && (b.powerSupply.Some? ==> b.powerSupply.value in c.powerSupplies)
    && (b.graphicsCard.Some? ==> b.graphicsCard.value in c.graphicsCards)
  }

  /** Resolving the ids of catalog parts against the catalog's id map gives back those parts. */
  lemma ResolveCatalogParts<S>(parts: seq<Part<S>>, all: seq<Part<S>>)
    requires UniqueIds(all)
    requires forall p :: p in parts ==> p in all
    ensures ResolveIds(Ids(parts), IndexById(all)) == parts
  {
    forall k | 0 <= k < |parts| ensures parts[k] in all {
      assert parts[k] in parts;
    }
    IndexFindsParts(parts, all);
    ResolveIdsOfParts(parts, IndexById(all));
  }

  /**
   * Round trip: resolving a serialised build against a catalog that holds
   * its parts under unique ids gives back the same case, motherboard,
   * power supply and RAM list, the CPU as a one-element list, and the
   * graphics card as a one-element list or none.
   */
  lemma ResolveSerializedBuild(b: PCBuild, id: string, c: Catalog)
    requires BuildPlanner.SerializeBuild(b, id).Some?
    requires CatalogIdsUnique(c) && FromCatalog(b, c)
    ensures var r := ResolveBuild(BuildPlanner.SerializeBuild(b, id).value, BuildComponentMaps(c));
      && r.id == id && r.name == b.name
      && r.pcCase == b.pcCase && r.motherboard == b.motherboard && r.powerSupply == b.powerSupply
      && r.cpus == [b.cpu.value]
      && r.ram == b.ram
      && r.graphicsCards == (if b.graphicsCard.Some? then [b.graphicsCard.value] else [])
  {
    var saved := BuildPlanner.SerializeBuild(b, id).value;
    IndexFindsPart(c.cases, b.pcCase.value);
    IndexFindsPart(c.motherboards, b.motherboard.value);
    IndexFindsPart(c.powerSupplies, b.powerSupply.value);
    assert saved.cpuIds == Ids([b.cpu.value]);
    ResolveCatalogParts([b.cpu.value], c.cpus);
    if b.graphicsCard.Some? {
      assert saved.graphicsCardIds.value == Ids([b.graphicsCard.value]);
      ResolveCatalogParts([b.graphicsCard.value], c.graphicsCards);
    }
    ResolveCatalogParts(b.ram, c.ram);
  }

  /** The build card's total RAM capacity: the capacities of the resolved modules, summed. */
  function TotalRamCapacity(r: ResolvedBuild): nat {
    BuildPlanner.TotalCapacity(r.ram)
  }

  /** After the round trip, the card shows the capacity the planner showed for the build. */
  lemma RoundTripCapacity(b: PCBuild, id: string, c: Catalog)
    requires BuildPlanner.SerializeBuild(b, id).Some?
    requires CatalogIdsUnique(c) && FromCatalog(b, c)
    ensures TotalRamCapacity(ResolveBuild(BuildPlanner.SerializeBuild(b, id).value, BuildComponentMaps(c)))
         == BuildPlanner.TotalCapacity(b.ram)
  {
    ResolveSerializedBuild(b, id, c);
  }
}
