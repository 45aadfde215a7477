/**
 * fp_core/instances.py: the instance record, the registry store, and the allocator that
 * picks the id and the two ports of a new instance.
 */
module Instances {
  import opened Wrappers
  import opened Host

  /** A registered printer instance (`Instance` dataclass). */
  datatype Instance = Instance(
    id: int,
    name: string,
    configDir: Path,
    klipperDir: Path,
    serviceName: string,
    klipperPort: int,
    moonrakerPort: int,
    moonrakerService: Option<string>,
    active: bool,
    sandbox: bool)

  /** Default first ports of the two families (fp_core/config.py). */
  const KlipperPortBase := 7125
  const MoonrakerPortBase := 7126

  /** Ports are probed in steps of this size. */
  const PortStep := 10

  /**
   * The registry file `instances.json`: `None` while the file does not exist, otherwise the
   * records it holds. Parsing and printing JSON are not modelled.
   */
  class Store {
    var saved: Option<seq<Instance>>

    constructor (saved: Option<seq<Instance>>)
      ensures this.saved == saved
    {
      this.saved := saved;
    }

    /** What `load_instances` would read now. */
    function Contents(): seq<Instance>
      reads this
    {
      if saved.Some? then saved.value else []
    }

    /** `load_instances`: a missing registry reads as the empty list. */
    method Load() returns (xs: seq<Instance>)
      ensures saved.None? ==> xs == []
      ensures saved.Some? ==> xs == saved.value
      ensures xs == Contents()
    {
      xs := if saved.Some? then saved.value else [];
    }

    /** `save_instances`: replaces the whole registry; the next load returns exactly `xs`. */
    method Save(xs: seq<Instance>)
      modifies this
      ensures saved == Some(xs) && Contents() == xs
    {
      saved := Some(xs);
    }
  }

  /** Largest id in a non-empty registry. */
  function MaxId(xs: seq<Instance>): (m: int)
    requires |xs| > 0
    ensures forall i :: 0 <= i < |xs| ==> xs[i].id <= m
    ensures exists i :: 0 <= i < |xs| && xs[i].id == m
    decreases |xs|
  {
    if |xs| == 1 then xs[0].id
    else
      var rest := MaxId(xs[1..]);
      assert forall i :: 1 <= i < |xs| ==> xs[i] == xs[1..][i - 1];
      if xs[0].id > rest then xs[0].id else rest
  }

  /** `next_id`: 1 for an empty registry, otherwise one more than the largest id. */
  function NextId(xs: seq<Instance>): (r: int)
    ensures xs == [] ==> r == 1
    ensures forall i :: 0 <= i < |xs| ==> xs[i].id < r
    ensures xs != [] ==> exists i :: 0 <= i < |xs| && xs[i].id == r - 1
  {
    if xs == [] then 1 else MaxId(xs) + 1
  }

  function KlipperPorts(xs: seq<Instance>): set<int> {
    set i | 0 <= i < |xs| :: xs[i].klipperPort
  }

  function MoonrakerPorts(xs: seq<Instance>): set<int> {
    set i | 0 <= i < |xs| :: xs[i].moonrakerPort
  }

  /** The j-th port the allocator tries from `base`. */
  function Candidate(base: int, j: nat): int {
    base + PortStep * j
  }

  /** Some number at least as large as every element of a finite set. */
  ghost function UpperBound(s: set<int>): (b: int)
    ensures forall x :: x in s ==> x <= b
    decreases s
  {
    if s == {} then 0
    else
      HasElement(s);
      var y :| y in s;
      var r := UpperBound(s - {y});
      assert forall z :: z in s ==> z == y || z in s - {y};
      if y > r then y else r
  }

  lemma HasElement(s: set<int>)
    requires s != {}
    ensures exists y :: y in s
  {
    if forall y :: y !in s {
      assert false;
    }
  }

  /**
   * The number of steps from candidate `j` to the first candidate not in `used`. It exists
   * because only finitely many ports are in use.
   */
  function FreeStep(used: set<int>, base: int, j: nat): (k: nat)
    ensures k >= j && Candidate(base, k) !in used
    ensures forall i :: j <= i < k ==> Candidate(base, i) in used
    decreases UpperBound(used) - Candidate(base, j)
  {
    if Candidate(base, j) in used then FreeStep(used, base, j + 1) else j
  }

  /** The port `allocate_ports` returns for one family. */
  function FirstFreePort(used: set<int>, base: int): int {
    Candidate(base, FreeStep(used, base, 0))
  }

  /**
   * `allocate_ports`: for each family, the first of base, base+10, base+20, ... that no
   * record uses in that family. The families are probed independently.
   */
  method AllocatePorts(xs: seq<Instance>, baseKlipper: int, baseMoonraker: int) returns (k: int, m: int)
    ensures k !in KlipperPorts(xs) && m !in MoonrakerPorts(xs)
    ensures exists j: nat :: k == Candidate(baseKlipper, j)
                            && forall i :: 0 <= i < j ==> Candidate(baseKlipper, i) in KlipperPorts(xs)
    ensures exists j: nat :: m == Candidate(baseMoonraker, j)
                            && forall i :: 0 <= i < j ==> Candidate(baseMoonraker, i) in MoonrakerPorts(xs)
    ensures k == FirstFreePort(KlipperPorts(xs), baseKlipper)
    ensures m == FirstFreePort(MoonrakerPorts(xs), baseMoonraker)
  {
    var usedK := KlipperPorts(xs);
    var usedM := MoonrakerPorts(xs);
    k := baseKlipper;
    m := baseMoonraker;
    ghost var jk: nat := 0;
    ghost var jm: nat := 0;
    while k in usedK
      invariant k == Candidate(baseKlipper, jk)
      invariant FreeStep(usedK, baseKlipper, jk) == FreeStep(usedK, baseKlipper, 0)
      invariant forall i :: 0 <= i < jk ==> Candidate(baseKlipper, i) in usedK
      decreases UpperBound(usedK) - k
    {
      k := k + PortStep;
      jk := jk + 1;
    }
    while m in usedM
      invariant m == Candidate(baseMoonraker, jm)
      invariant FreeStep(usedM, baseMoonraker, jm) == FreeStep(usedM, baseMoonraker, 0)
      invariant forall i :: 0 <= i < jm ==> Candidate(baseMoonraker, i) in usedM
      decreases UpperBound(usedM) - m
    {
      m := m + PortStep;
      jm := jm + 1;
    }
  }

  /** The first free candidate is the only candidate that is free with all earlier ones used. */
  lemma FirstFreePortUnique(used: set<int>, base: int, j: nat)
    requires Candidate(base, j) !in used
    requires forall i :: 0 <= i < j ==> Candidate(base, i) in used
    ensures FirstFreePort(used, base) == Candidate(base, j)
  {
    var k := FreeStep(used, base, 0);
    assert k == j;
  }

  /** `allocate_ports([], 7125, 7126) == (7125, 7126)`. */
  lemma AllocateOnEmptyRegistry()
    ensures FirstFreePort(KlipperPorts([]), KlipperPortBase) == 7125
    ensures FirstFreePort(MoonrakerPorts([]), MoonrakerPortBase) == 7126
  {
    FirstFreePortUnique(KlipperPorts([]), KlipperPortBase, 0);
    FirstFreePortUnique(MoonrakerPorts([]), MoonrakerPortBase, 0);
  }

  /**
   * One record holding klipper port 7125 moves only the klipper port: the moonraker family
   * is probed against moonraker ports alone.
   */
  lemma AllocateAfterOneKlipperPort(x: Instance)
    requires x.klipperPort == 7125 && x.moonrakerPort != 7126
    ensures FirstFreePort(KlipperPorts([x]), KlipperPortBase) == 7135
    ensures FirstFreePort(MoonrakerPorts([x]), MoonrakerPortBase) == 7126
  {
    assert [x][0] == x;
    assert x.klipperPort in KlipperPorts([x]) && x.moonrakerPort in MoonrakerPorts([x]);
    assert forall p :: p in KlipperPorts([x]) ==> p == x.klipperPort;
    assert forall p :: p in MoonrakerPorts([x]) ==> p == x.moonrakerPort;
    assert KlipperPorts([x]) == {7125};
    assert MoonrakerPorts([x]) == {x.moonrakerPort};
    FirstFreePortUnique(KlipperPorts([x]), KlipperPortBase, 1);
    FirstFreePortUnique(MoonrakerPorts([x]), MoonrakerPortBase, 0);
  }

  /** Ids are pairwise distinct, and so are the ports within each family. */
  predicate RegistryDistinct(xs: seq<Instance>) {
    && (forall i, j :: 0 <= i < j < |xs| ==> xs[i].id != xs[j].id)
    && (forall i, j :: 0 <= i < j < |xs| ==> xs[i].klipperPort != xs[j].klipperPort)
    && (forall i, j :: 0 <= i < j < |xs| ==> xs[i].moonrakerPort != xs[j].moonrakerPort)
  }

  /** Appending a record with the next id and freshly allocated ports keeps the registry distinct. */
  lemma AppendAllocatedKeepsDistinct(xs: seq<Instance>, x: Instance)
    requires RegistryDistinct(xs)
    requires x.id == NextId(xs)
    requires x.klipperPort == FirstFreePort(KlipperPorts(xs), KlipperPortBase)
    requires x.moonrakerPort == FirstFreePort(MoonrakerPorts(xs), MoonrakerPortBase)
    ensures RegistryDistinct(xs + [x])
  {
    var ys := xs + [x];
    forall i | 0 <= i < |xs|
      ensures ys[i].klipperPort != x.klipperPort && ys[i].moonrakerPort != x.moonrakerPort
    {
      assert xs[i].klipperPort in KlipperPorts(xs);
      assert xs[i].moonrakerPort in MoonrakerPorts(xs);
    }
  }

  /** Ids need not be fresh forever: deleting the newest record frees its id for the next create. */
  lemma NextIdReusesDeletedNewest(xs: seq<Instance>, x: Instance)
    requires forall i :: 0 <= i < |xs| ==> xs[i].id < x.id
    ensures NextId(xs + [x]) == x.id + 1
    ensures xs != [] ==> NextId(xs) <= x.id
    ensures xs == [] ==> NextId(xs) == 1
  {
    if xs != [] {
      var i :| 0 <= i < |xs| && xs[i].id == NextId(xs) - 1;
    }
    var j :| 0 <= j < |xs + [x]| && (xs + [x])[j].id == NextId(xs + [x]) - 1;
    assert (xs + [x])[|xs|] == x;
  }
}
