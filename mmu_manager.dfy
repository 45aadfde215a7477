/**
 * The filament table and tool-change planner of the desktop back end
 * (fluxpath/core/mmu.py). The table maps each tool to one filament and keeps the order
 * in which tools were first inserted, as a Python dict does.
 */
module MmuManager {
  import opened Wrappers
  import opened Decimal

  datatype Filament = Filament(tool: int, colorHex: string, material: string, name: Option<string>)

  /**
   * One entry handed to `set_filaments`. `tool` is None when `int(f["tool"])` raises (the key
   * is missing or not a number); the other fields are None when the key is absent.
   */
  datatype FilamentInput = FilamentInput(tool: Option<int>, colorHex: Option<string>, material: Option<string>, name: Option<string>)

  datatype PurgeStrategy = Tower | Infill | Wipe | NoPurge

  datatype Capabilities = Capabilities(tools: int, purgeStrategy: PurgeStrategy, minPurgeVolume: int, maxPurgeVolume: int)

  /** Volumes are whole multiples of 100 in this code, so they are kept as integers. */
  datatype ToolchangePlan = ToolchangePlan(sequence: seq<int>, estimatedPurgeVolume: int, warnings: seq<string>)

  const PurgePerChange := 100

  /** The fixed capabilities every manager reports. */
  const DefaultCaps := Capabilities(4, Tower, 80, 300)

  /** The record stored for one input, with the documented defaults. */
  function ToFilament(f: FilamentInput): (r: Filament)
    requires f.tool.Some?
    ensures r.tool == f.tool.value
    ensures r.colorHex == if f.colorHex.Some? then f.colorHex.value else "#FFFFFF"
    ensures r.material == if f.material.Some? then f.material.value else "PLA"
    ensures r.name == f.name
  {
    Filament(f.tool.value,
             match f.colorHex case Some(c) => c case None => "#FFFFFF",
             match f.material case Some(m) => m case None => "PLA",
             f.name)
  }

  /** At most one entry per tool. */
  predicate DistinctTools(fs: seq<Filament>) {
    forall i, j :: 0 <= i < j < |fs| ==> fs[i].tool != fs[j].tool
  }

  /** The tools that have an entry. */
  function Tools(fs: seq<Filament>): set<int> {
    set i | 0 <= i < |fs| :: fs[i].tool
  }

  /** The tools the inputs name. */
  function InputTools(xs: seq<FilamentInput>): set<int> {
    set j | 0 <= j < |xs| && xs[j].tool.Some? :: xs[j].tool.value
  }

  /** `d[f.tool] = f` on an insertion-ordered dict: an existing tool keeps its place, a new one goes last. */
  function Put(fs: seq<Filament>, f: Filament): (r: seq<Filament>)
    requires DistinctTools(fs)
    ensures DistinctTools(r)
    ensures Tools(r) == Tools(fs) + {f.tool}
    ensures f in r
    ensures forall g :: g in fs && g.tool != f.tool ==> g in r
    ensures forall g :: g in r ==> g == f || g in fs
    decreases |fs|
  {
    if fs == [] then [f]
    else
      var tail := fs[1..];
      ToolsCons(fs[0], tail);
      DistinctToolsCons(fs[0], tail);
      assert fs == [fs[0]] + tail;
      if fs[0].tool == f.tool then
        ToolsCons(f, tail);
        DistinctToolsCons(f, tail);
        [f] + tail
      else
        var rest := Put(tail, f);
        ToolsCons(fs[0], rest);
        DistinctToolsCons(fs[0], rest);
        [fs[0]] + rest
  }

  /** `Put` of a tool already present replaces that entry in its place; nothing else moves. */
  lemma {:induction false} PutReplaces(fs: seq<Filament>, f: Filament)
    requires DistinctTools(fs) && f.tool in Tools(fs)
    ensures |Put(fs, f)| == |fs|
    ensures forall k :: 0 <= k < |fs| ==> Put(fs, f)[k] == (if fs[k].tool == f.tool then f else fs[k])
    decreases |fs|
  {
    var tail := fs[1..];
    ToolsCons(fs[0], tail);
    assert fs == [fs[0]] + tail;
    if fs[0].tool != f.tool {
      PutReplaces(tail, f);
      DistinctToolsCons(fs[0], tail);
      var r := Put(fs, f);
      assert r == [fs[0]] + Put(tail, f);
      forall k | 1 <= k < |fs|
        ensures r[k] == (if fs[k].tool == f.tool then f else fs[k])
      {
        assert r[k] == Put(tail, f)[k - 1] && fs[k] == tail[k - 1];
      }
    }
  }

  /** `Put` of a new tool appends the entry after all the others. */
  lemma {:induction false} PutAppends(fs: seq<Filament>, f: Filament)
    requires DistinctTools(fs) && f.tool !in Tools(fs)
    ensures Put(fs, f) == fs + [f]
    decreases |fs|
  {
    if fs != [] {
      var tail := fs[1..];
      ToolsCons(fs[0], tail);
      DistinctToolsCons(fs[0], tail);
      assert fs == [fs[0]] + tail;
      PutAppends(tail, f);
      assert Put(fs, f) == [fs[0]] + (tail + [f]);
    }
  }

  /** A table with one more entry in front has distinct tools exactly when the rest does and lacks its tool. */
  lemma DistinctToolsCons(f: Filament, fs: seq<Filament>)
    ensures DistinctTools([f] + fs) <==> DistinctTools(fs) && f.tool !in Tools(fs)
  {
    var g := [f] + fs;
    if DistinctTools(g) {
      forall i, j | 0 <= i < j < |fs| ensures fs[i].tool != fs[j].tool {
        assert g[i + 1] == fs[i] && g[j + 1] == fs[j];
      }
      forall i | 0 <= i < |fs| ensures fs[i].tool != f.tool {
        assert g[0] == f && g[i + 1] == fs[i];
        assert g[0].tool != g[i + 1].tool;
      }
    }
    if DistinctTools(fs) && f.tool !in Tools(fs) {
      forall i, j | 0 <= i < j < |g| ensures g[i].tool != g[j].tool {
        assert g[j] == fs[j - 1];
        if i > 0 {
          assert g[i] == fs[i - 1];
        } else {
          assert fs[j - 1].tool in Tools(fs);
        }
      }
    }
  }

  lemma ToolsCons(f: Filament, fs: seq<Filament>)
    ensures Tools([f] + fs) == {f.tool} + Tools(fs)
  {
    var g := [f] + fs;
    forall t | t in Tools(g) ensures t in {f.tool} + Tools(fs) {
      var i :| 0 <= i < |g| && g[i].tool == t;
      if i > 0 { assert g[i] == fs[i - 1]; }
    }
    forall t | t in Tools(fs) ensures t in Tools(g) {
      var i :| 0 <= i < |fs| && fs[i].tool == t;
      assert g[i + 1] == fs[i];
    }
    assert g[0] == f;
  }

  /** Every input names a usable tool. */
  predicate AllToolsGiven(xs: seq<FilamentInput>) {
    forall i :: 0 <= i < |xs| ==> xs[i].tool.Some?
  }

  /** The table after storing `xs` one after the other into an empty dict. */
  function Collect(xs: seq<FilamentInput>): (r: seq<Filament>)
    requires AllToolsGiven(xs)
    ensures DistinctTools(r)
    decreases |xs|
  {
    if xs == [] then [] else Put(Collect(xs[..|xs| - 1]), ToFilament(xs[|xs| - 1]))
  }

  /** Storing one more input extends the table by one `Put`. */
  lemma CollectStep(xs: seq<FilamentInput>, i: nat)
    requires i < |xs| && AllToolsGiven(xs[..i]) && xs[i].tool.Some?
    ensures AllToolsGiven(xs[..i + 1])
    ensures Collect(xs[..i + 1]) == Put(Collect(xs[..i]), ToFilament(xs[i]))
  {
    assert xs[..i + 1][..i] == xs[..i];
  }

  /** A tool is in the table exactly when some input names it. */
  lemma {:induction false} CollectTools(xs: seq<FilamentInput>)
    requires AllToolsGiven(xs)
    ensures Tools(Collect(xs)) == InputTools(xs)
    decreases |xs|
  {
    if xs != [] {
      var init := xs[..|xs| - 1];
      CollectTools(init);
      InputToolsSnoc(xs);
    }
  }

  lemma InputToolsSnoc(xs: seq<FilamentInput>)
    requires xs != [] && xs[|xs| - 1].tool.Some?
    ensures InputTools(xs) == InputTools(xs[..|xs| - 1]) + {xs[|xs| - 1].tool.value}
  {
    var init := xs[..|xs| - 1];
    forall t | t in InputTools(xs) ensures t in InputTools(init) + {xs[|xs| - 1].tool.value} {
      var j :| 0 <= j < |xs| && xs[j].tool.Some? && xs[j].tool.value == t;
      if j < |init| {
        assert init[j] == xs[j];
      }
    }
    forall t | t in InputTools(init) ensures t in InputTools(xs) {
      var j :| 0 <= j < |init| && init[j].tool.Some? && init[j].tool.value == t;
      assert xs[j] == init[j];
    }
  }

  /** For a tool named more than once, the table holds the values of its last input. */
  lemma {:induction false} CollectLastWins(xs: seq<FilamentInput>, j: nat)
    requires AllToolsGiven(xs) && j < |xs|
    requires forall k :: j < k < |xs| ==> xs[k].tool != xs[j].tool
    ensures ToFilament(xs[j]) in Collect(xs)
    decreases |xs|
  {
    var init := xs[..|xs| - 1];
    if j < |xs| - 1 {
      CollectLastWins(init, j);
      assert init[j] == xs[j];
    }
  }

  /** The filament manager. */
  class Manager {
    /** The dict's values, in insertion order. */
    var filaments: seq<Filament>
    const caps: Capabilities := DefaultCaps

    predicate Valid()
      reads this
    {
      DistinctTools(filaments)
    }

    /** `MMUManager()`: an empty table and the fixed capabilities. */
    constructor ()
      ensures filaments == [] && Valid()
    {
      filaments := [];
    }

    /** `get_capabilities`. */
    function GetCapabilities(): (c: Capabilities)
      ensures c.tools == 4 && c.purgeStrategy == Tower && c.minPurgeVolume == 80 && c.maxPurgeVolume == 300
      ensures c == caps
    {
      caps
    }

    /** `get_filaments`: the stored entries in dict order. */
    function GetFilaments(): (r: seq<Filament>)
      reads this
      ensures Valid() ==> DistinctTools(r)
    {
      filaments
    }

    /**
     * `set_filaments`: clear the table, then store each input in turn. An input whose tool
     * cannot be read raises, leaving the entries stored before it.
     */
    method SetFilaments(xs: seq<FilamentInput>) returns (r: Result<seq<Filament>, nat>)
      modifies this
      ensures Valid()
      ensures r.Ok? <==> AllToolsGiven(xs)
      ensures r.Ok? ==> filaments == Collect(xs) && r.value == filaments
      ensures r.Err? ==> r.error < |xs| && xs[r.error].tool.None? && AllToolsGiven(xs[..r.error])
                         && filaments == Collect(xs[..r.error])
    {
      filaments := [];
      for i := 0 to |xs|
        invariant AllToolsGiven(xs[..i])
        invariant filaments == Collect(xs[..i])
      {
        if xs[i].tool.None? {
          return Err(i);
        }
        CollectStep(xs, i);
        filaments := Put(filaments, ToFilament(xs[i]));
      }
      assert xs[..|xs|] == xs;
      return Ok(filaments);
    }

    /** `plan_toolchanges`. */
    function PlanToolchanges(sequence: seq<int>): (p: ToolchangePlan)
      ensures p.sequence == sequence
      ensures p.estimatedPurgeVolume == if |sequence| <= 1 then 0 else (|sequence| - 1) * PurgePerChange
      ensures |p.warnings| <= 1
      ensures |p.warnings| == 1 <==> p.estimatedPurgeVolume > caps.maxPurgeVolume
    {
      var estimated := if (|sequence| - 1) * PurgePerChange < 0 then 0 else (|sequence| - 1) * PurgePerChange;
      var warnings := if estimated > caps.maxPurgeVolume
        then ["Estimated purge volume " + IntToString(estimated) + ".0 exceeds max " + IntToString(caps.maxPurgeVolume) + ".0"]
        else [];
      ToolchangePlan(sequence, estimated, warnings)
    }

    /** With the fixed capabilities, a plan warns exactly when it has five or more tool entries. */
    lemma PlanWarnsFromFive(sequence: seq<int>)
      ensures |PlanToolchanges(sequence).warnings| == (if |sequence| >= 5 then 1 else 0)
    {
    }
  }
}
