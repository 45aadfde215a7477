/**
 * The multi-instance command line (fluxpath.py): create, list, install, restart, delete and
 * diagnose printer instances. Every command loads the registry, performs its side effects
 * and, for create and delete, saves the registry last.
 */
module Orchestrator {
  import opened Wrappers
  import opened Host
  import opened Decimal
  import opened Instances
  import opened Klipper
  import opened Systemd

  /** `_get_instance`: the first record with the id, or None. */
  function GetInstance(xs: seq<Instance>, id: int): (r: Option<Instance>)
    ensures r.None? <==> forall i :: 0 <= i < |xs| ==> xs[i].id != id
    ensures r.Some? ==> r.value.id == id
                        && exists i :: 0 <= i < |xs| && xs[i] == r.value && forall j :: 0 <= j < i ==> xs[j].id != id
    decreases |xs|
  {
    if xs == [] then None
    else if xs[0].id == id then Some(xs[0])
    else
      var r := GetInstance(xs[1..], id);
      assert forall k :: 1 <= k < |xs| ==> xs[k] == xs[1..][k - 1];
      r
  }

  /** The record create builds, before its services are enabled. */
  function NewRecord(id: int, klipperPort: int, moonrakerPort: int, sandbox: bool): Instance {
    Instance(
      id := id,
      name := "instance_" + IntToString(id),
      configDir := InstanceRoot(id) + ["config"],
      klipperDir := KlipperClonePath(id),
      serviceName := "klipper" + IntToString(id),
      klipperPort := klipperPort,
      moonrakerPort := moonrakerPort,
      moonrakerService := Some("moonraker" + IntToString(id)),
      active := false,
      sandbox := sandbox)
  }

  /** The record a successful create appends to registry `xs`. */
  function CreatedRecord(xs: seq<Instance>, sandbox: bool): (x: Instance)
    ensures x.id == NextId(xs) && forall i :: 0 <= i < |xs| ==> xs[i].id < x.id
    ensures x.klipperPort !in KlipperPorts(xs) && x.moonrakerPort !in MoonrakerPorts(xs)
    ensures x.sandbox == sandbox && x.active == !sandbox
    ensures x.configDir == InstanceRoot(x.id) + ["config"] && x.klipperDir == KlipperClonePath(x.id)
  {
    var k := FirstFreePort(KlipperPorts(xs), KlipperPortBase);
    var m := FirstFreePort(MoonrakerPorts(xs), MoonrakerPortBase);
    NewRecord(NextId(xs), k, m, sandbox).(active := !sandbox)
  }

  /** `[i for i in instances if i.id != id]`. */
  function Without(xs: seq<Instance>, id: int): (r: seq<Instance>)
    ensures |r| <= |xs|
    decreases |xs|
  {
    if xs == [] then []
    else (if xs[0].id != id then [xs[0]] else []) + Without(xs[1..], id)
  }

  /** Removing an id keeps exactly the records with another id. */
  lemma {:induction false} WithoutMembers(xs: seq<Instance>, id: int)
    ensures forall x :: x in Without(xs, id) <==> x in xs && x.id != id
    decreases |xs|
  {
    if xs != [] {
      WithoutMembers(xs[1..], id);
      assert xs == [xs[0]] + xs[1..];
    }
  }

  /** No two records share an id. */
  predicate DistinctIds(xs: seq<Instance>) {
    forall a, b :: 0 <= a < b < |xs| ==> xs[a].id != xs[b].id
  }

  /** In a registry with distinct ids, removing one id keeps all other records, in order. */
  lemma {:induction false} WithoutRemovesOne(xs: seq<Instance>, i: nat)
    requires i < |xs| && DistinctIds(xs)
    ensures Without(xs, xs[i].id) == xs[..i] + xs[i + 1..]
    decreases |xs|
  {
    var tail := xs[1..];
    DistinctIdsTail(xs);
    if i == 0 {
      WithoutAbsent(tail, xs[0].id);
    } else {
      WithoutRemovesOne(tail, i - 1);
      assert tail[i - 1] == xs[i];
      assert xs[..i] + xs[i + 1..] == [xs[0]] + (tail[..i - 1] + tail[i..]);
    }
  }

  /** The rest of a registry with distinct ids has distinct ids, none of them the head's. */
  lemma DistinctIdsTail(xs: seq<Instance>)
    requires xs != [] && DistinctIds(xs)
    ensures DistinctIds(xs[1..])
    ensures forall x :: x in xs[1..] ==> x.id != xs[0].id
  {
    var tail := xs[1..];
    forall a, b | 0 <= a < b < |tail| ensures tail[a].id != tail[b].id {
      assert tail[a] == xs[a + 1] && tail[b] == xs[b + 1];
    }
    forall x | x in tail ensures x.id != xs[0].id {
      var j :| 0 <= j < |tail| && tail[j] == x;
      assert xs[j + 1] == x;
    }
  }

  /** Removing an id that no record has leaves the registry as it was. */
  lemma {:induction false} WithoutAbsent(xs: seq<Instance>, id: int)
    requires forall x :: x in xs ==> x.id != id
    ensures Without(xs, id) == xs
    decreases |xs|
  {
    if xs != [] {
      WithoutAbsent(xs[1..], id);
      assert xs == [xs[0]] + xs[1..];
    }
  }

  /** Prepending a record that shares no id and no same-family port with the rest. */
  lemma ConsDistinct(x: Instance, ys: seq<Instance>)
    requires RegistryDistinct(ys)
    requires forall y :: y in ys ==> y.id != x.id && y.klipperPort != x.klipperPort && y.moonrakerPort != x.moonrakerPort
    ensures RegistryDistinct([x] + ys)
  {
    var zs := [x] + ys;
    forall i, j | 0 <= i < j < |zs|
      ensures zs[i].id != zs[j].id && zs[i].klipperPort != zs[j].klipperPort && zs[i].moonrakerPort != zs[j].moonrakerPort
    {
      if i == 0 {
        assert zs[j] == ys[j - 1] && zs[j] in ys;
      } else {
        assert zs[i] == ys[i - 1] && zs[j] == ys[j - 1];
      }
    }
  }

  /** Deleting keeps the registry distinct. */
  lemma {:induction false} WithoutKeepsDistinct(xs: seq<Instance>, id: int)
    requires RegistryDistinct(xs)
    ensures RegistryDistinct(Without(xs, id))
    decreases |xs|
  {
    if xs != [] {
      var tail := xs[1..];
      RegistryDistinctTail(xs);
      WithoutKeepsDistinct(tail, id);
      if xs[0].id != id {
        WithoutMembers(tail, id);
        ConsDistinct(xs[0], Without(tail, id));
      } else {
        assert [] + Without(tail, id) == Without(tail, id);
      }
    }
  }

  /** The rest of a distinct registry is distinct and shares no id or same-family port with the head. */
  lemma RegistryDistinctTail(xs: seq<Instance>)
    requires xs != [] && RegistryDistinct(xs)
    ensures RegistryDistinct(xs[1..])
    ensures forall y :: y in xs[1..] ==>
              y.id != xs[0].id && y.klipperPort != xs[0].klipperPort && y.moonrakerPort != xs[0].moonrakerPort
  {
    var tail := xs[1..];
    forall i, j | 0 <= i < j < |tail|
      ensures tail[i].id != tail[j].id && tail[i].klipperPort != tail[j].klipperPort
              && tail[i].moonrakerPort != tail[j].moonrakerPort
    {
      assert tail[i] == xs[i + 1] && tail[j] == xs[j + 1];
    }
    forall y | y in tail
      ensures y.id != xs[0].id && y.klipperPort != xs[0].klipperPort && y.moonrakerPort != xs[0].moonrakerPort
    {
      var j :| 0 <= j < |tail| && tail[j] == y;
      assert xs[j + 1] == y;
    }
  }

  /** A registry-changing command, as its effect on the registry. */
  datatype Op = Create(sandbox: bool) | Delete(id: int)

  /** The registry after one successful create or forced delete. */
  function ApplyOp(xs: seq<Instance>, op: Op): seq<Instance> {
    match op
    case Create(sandbox) => xs + [CreatedRecord(xs, sandbox)]
    case Delete(id) => Without(xs, id)
  }

  /** The registry after a sequence of successful creates and forced deletes. */
  function Replay(xs: seq<Instance>, ops: seq<Op>): seq<Instance>
    decreases |ops|
  {
    if ops == [] then xs else Replay(ApplyOp(xs, ops[0]), ops[1..])
  }

  lemma ReplayOne(xs: seq<Instance>, op: Op)
    ensures Replay(xs, [op]) == ApplyOp(xs, op)
  {
    assert [op][1..] == [];
  }

  /** Replaying one more operation applies it to the registry the others left. */
  lemma {:induction false} ReplaySnoc(xs: seq<Instance>, ops: seq<Op>, op: Op)
    ensures Replay(xs, ops + [op]) == ApplyOp(Replay(xs, ops), op)
    decreases |ops|
  {
    if ops == [] {
      assert ops + [op] == [op];
      ReplayOne(xs, op);
    } else {
      assert (ops + [op])[1..] == ops[1..] + [op];
      ReplaySnoc(ApplyOp(xs, ops[0]), ops[1..], op);
    }
  }

  /**
   * Across any sequence of creates and deletes, ids stay pairwise distinct, and so do the
   * klipper ports and the moonraker ports.
   */
  lemma {:induction false} ReplayKeepsDistinct(xs: seq<Instance>, ops: seq<Op>)
    requires RegistryDistinct(xs)
    ensures RegistryDistinct(Replay(xs, ops))
    decreases |ops|
  {
    if ops != [] {
      match ops[0] {
        case Create(sandbox) => AppendAllocatedKeepsDistinct(xs, CreatedRecord(xs, sandbox));
        case Delete(id) => WithoutKeepsDistinct(xs, id);
      }
      ReplayKeepsDistinct(ApplyOp(xs, ops[0]), ops[1..]);
    }
  }

  /**
   * From an empty registry: a live create gets id 1 and ports 7125/7126, a sandbox create
   * then gets id 2 and ports 7135/7136, and a forced delete of id 1 leaves only id 2.
   */
  lemma EndToEndScenario()
    ensures var two := Replay([], [Create(false), Create(true)]);
            && |two| == 2
            && two[0].id == 1 && two[0].klipperPort == 7125 && two[0].moonrakerPort == 7126
            && two[0].active && !two[0].sandbox
            && two[1].id == 2 && two[1].klipperPort == 7135 && two[1].moonrakerPort == 7136
            && !two[1].active && two[1].sandbox
            && Replay([], [Create(false), Create(true), Delete(1)]) == [two[1]]
  {
    var one := CreatedRecord([], false);
    AllocateOnEmptyRegistry();
    assert one.id == 1 && one.klipperPort == 7125 && one.moonrakerPort == 7126;
    var second := CreatedRecord([one], true);
    assert KlipperPorts([one]) == {7125};
    assert MoonrakerPorts([one]) == {7126};
    FirstFreePortUnique({7125}, KlipperPortBase, 1);
    FirstFreePortUnique({7126}, MoonrakerPortBase, 1);
    assert second.id == 2 && second.klipperPort == 7135 && second.moonrakerPort == 7136;
    ReplayOne([], Create(false));
    assert [Create(false), Create(true)] == [Create(false)] + [Create(true)];
    ReplaySnoc([], [Create(false)], Create(true));
    assert Replay([], [Create(false), Create(true)]) == [one, second];
    assert [Create(false), Create(true), Delete(1)] == [Create(false), Create(true)] + [Delete(1)];
    ReplaySnoc([], [Create(false), Create(true)], Delete(1));
    assert Without([one, second], 1) == [second] by {
      assert [one, second][1..] == [second];
      assert [second][1..] == [];
    }
  }

  /**
   * Ids are "max + 1", not "never used before": deleting the record a create just added
   * restores the registry, and the next create hands out the same id again.
   */
  lemma CreateDeleteCreate(xs: seq<Instance>, s: bool, t: bool)
    ensures var ys := Replay(xs, [Create(s), Delete(NextId(xs)), Create(t)]);
            && ys == xs + [CreatedRecord(xs, t)]
            && ys[|xs|].id == CreatedRecord(xs, s).id
  {
    var x := CreatedRecord(xs, s);
    forall y | y in xs ensures y.id != x.id {
      var i :| 0 <= i < |xs| && xs[i] == y;
    }
    WithoutAppendAbsent(xs, x);
    ReplayThree(xs, Create(s), Delete(NextId(xs)), Create(t));
  }

  /** Replaying three operations applies them in order. */
  lemma ReplayThree(xs: seq<Instance>, a: Op, b: Op, c: Op)
    ensures Replay(xs, [a, b, c]) == ApplyOp(ApplyOp(ApplyOp(xs, a), b), c)
  {
    var xa := ApplyOp(xs, a);
    var xb := ApplyOp(xa, b);
    assert [a, b, c][1..] == [b, c];
    assert Replay(xs, [a, b, c]) == Replay(xa, [b, c]);
    assert [b, c][1..] == [c];
    assert Replay(xa, [b, c]) == Replay(xb, [c]);
    ReplayOne(xb, c);
  }

  /** Removing the id of an appended record whose id nobody else has gives back the registry. */
  lemma {:induction false} WithoutAppendAbsent(xs: seq<Instance>, x: Instance)
    requires forall y :: y in xs ==> y.id != x.id
    ensures Without(xs + [x], x.id) == xs
    decreases |xs|
  {
    if xs == [] {
      assert Without([x], x.id) == [] + Without([x][1..], x.id);
    } else {
      assert (xs + [x])[1..] == xs[1..] + [x];
      WithoutAppendAbsent(xs[1..], x);
      assert xs == [xs[0]] + xs[1..];
    }
  }

  /** Records of different ids never share a name, a directory or a service name. */
  lemma CreatedRecordsDiffer(xs: seq<Instance>, ys: seq<Instance>, s: bool, t: bool)
    requires NextId(xs) != NextId(ys)
    ensures var a, b := CreatedRecord(xs, s), CreatedRecord(ys, t);
            && a.name != b.name && a.serviceName != b.serviceName && a.moonrakerService != b.moonrakerService
            && a.configDir != b.configDir && a.klipperDir != b.klipperDir
  {
    var a, b := CreatedRecord(xs, s), CreatedRecord(ys, t);
    if a.configDir == b.configDir {
      assert a.configDir[3] == "instance_" + IntToString(a.id);
      PrefixedIntInjective("instance_", a.id, b.id);
    }
    if a.klipperDir == b.klipperDir {
      assert a.klipperDir[2] == "klipper_" + IntToString(a.id);
      PrefixedIntInjective("klipper_", a.id, b.id);
    }
    if a.name == b.name { PrefixedIntInjective("instance_", a.id, b.id); }
    if a.serviceName == b.serviceName { PrefixedIntInjective("klipper", a.id, b.id); }
    if a.moonrakerService == b.moonrakerService { PrefixedIntInjective("moonraker", a.id, b.id); }
  }

  /** The directory-creating steps only touch paths under /home. */
  lemma InstanceDirsUnderHome(fs: FileMap, id: int)
    ensures ChangesOnlyUnder(fs, InstanceDirs(fs, id).fs, "home")
  {
    var after := InstanceDirs(fs, id).fs;
    forall q | q in after && q !in fs ensures q[0] == "home" {
      assert IsPrefix(q, InstanceRoot(id) + ["config"]) || IsPrefix(q, InstanceRoot(id) + ["logs"])
             || IsPrefix(q, InstanceRoot(id) + ["comms"]);
    }
  }

  /** `<root>/config/printer.cfg` of instance `id`. */
  function PrinterCfgPath(id: int): (p: Path)
    ensures p == (InstanceRoot(id) + ["config"]) + ["printer.cfg"] && |p| == 6
  {
    InstanceRoot(id) + ["config", "printer.cfg"]
  }

  /** The clone target is on none of an instance's directory paths: `klipper_{id}` is not `printer_data_instances`. */
  lemma CloneOffDirPaths(id: int, last: string)
    ensures !IsPrefix(KlipperClonePath(id), InstanceRoot(id) + [last])
  {
    var k := KlipperClonePath(id);
    var p := InstanceRoot(id) + [last];
    assert k[2][0] != p[2][0];
  }

  /**
   * The directory step never creates the clone target or printer.cfg: neither is a prefix of
   * the three directories (printer.cfg is deeper than all of them).
   */
  lemma InstanceDirsAvoid(fs: FileMap, id: int)
    ensures KlipperClonePath(id) in InstanceDirs(fs, id).fs <==> KlipperClonePath(id) in fs
    ensures PrinterCfgPath(id) in InstanceDirs(fs, id).fs <==> PrinterCfgPath(id) in fs
  {
    CloneOffDirPaths(id, "config");
    CloneOffDirPaths(id, "logs");
    CloneOffDirPaths(id, "comms");
  }

  /**
   * The provisioning half of `cmd_instance_create`: directories, the klipper clone and the
   * base printer.cfg, stopping at the first failure. At most the clone is issued. The
   * printer.cfg step cannot fail: `config` is a directory by then.
   */
  function ProvisionRun(answer: Answer, fs: FileMap, log: seq<Cmd>, id: int): (o: Outcome<Path>)
    ensures IssuedPrefix(log, CloneCmds(fs, id), o.log)
    ensures o.result.Ok? ==> o.result.value == InstanceRoot(id) + ["config"] && o.log == log + CloneCmds(fs, id)
    ensures o.result.Err? ==> FailedLastCommand(answer, log, o.log, o.result.error)
  {
    var dirs := InstanceDirs(fs, id);
    IssuedNoneOrAll(log, CloneCmds(fs, id));
    if dirs.status.Err? then Outcome(dirs.fs, log, Err(dirs.status.error))
    else
      InstanceDirsAvoid(fs, id);
      assert CloneCmds(dirs.fs, id) == CloneCmds(fs, id);
      CloneThenCfg(answer, dirs.fs, log, id)
  }

  /** The clone and printer.cfg steps of provisioning, once the directories exist. */
  function CloneThenCfg(answer: Answer, fs: FileMap, log: seq<Cmd>, id: int): (o: Outcome<Path>)
    requires IsDir(fs, InstanceRoot(id) + ["config"])
    ensures o.log == log + CloneCmds(fs, id)
    ensures o.result.Ok? ==> o.result.value == InstanceRoot(id) + ["config"]
    ensures o.result.Err? ==> FailedLastCommand(answer, log, o.log, o.result.error)
  {
    var c := Clone(answer, fs, log, id);
    if c.result.Err? then Outcome(c.fs, c.log, Err(c.result.error))
    else
      var configDir := InstanceRoot(id) + ["config"];
      var p := BasePrinterCfg(c.fs, configDir);
      assert p.Ok?;
      Outcome(p.value, c.log, Ok(configDir))
  }

  /** The clone and printer.cfg steps change only paths under /home. */
  lemma CloneAndCfgUnderHome(f0: FileMap, f1: FileMap, f2: FileMap, id: int)
    requires f1 == f0 || f1 == f0[KlipperClonePath(id) := Dir]
    requires f2 == f1 || f2 == f1[PrinterCfgPath(id) := File(BasePrinterCfgFile)]
    ensures ChangesOnlyUnder(f0, f2, "home")
  {
  }

  /**
   * Cloning and writing printer.cfg touch only paths under /home and keep every existing
   * entry; they succeed exactly when the clone is already there or exits 0, and a failure
   * changes nothing.
   */
  lemma CloneThenCfgFrame(answer: Answer, fs: FileMap, log: seq<Cmd>, id: int)
    requires IsDir(fs, InstanceRoot(id) + ["config"])
    ensures var o := CloneThenCfg(answer, fs, log, id);
            && ChangesOnlyUnder(fs, o.fs, "home") && Extends(fs, o.fs)
            && (o.result.Ok? <==> Exists(fs, KlipperClonePath(id)) || answer(log, GitCloneCmd(KlipperClonePath(id))) == 0)
            && (o.result.Err? ==> o.fs == fs)
  {
    var c := Clone(answer, fs, log, id);
    if c.result.Ok? {
      var p := BasePrinterCfg(c.fs, InstanceRoot(id) + ["config"]);
      CloneAndCfgUnderHome(fs, c.fs, p.value, id);
    }
  }

  /**
   * After cloning and writing printer.cfg succeed, `config` is still a directory, the clone
   * exists, and printer.cfg holds what it held before or, when it was absent, the base text.
   */
  lemma CloneThenCfgWrites(answer: Answer, fs: FileMap, log: seq<Cmd>, id: int)
    requires IsDir(fs, InstanceRoot(id) + ["config"])
    requires CloneThenCfg(answer, fs, log, id).result.Ok?
    ensures var f := CloneThenCfg(answer, fs, log, id).fs;
            && IsDir(f, InstanceRoot(id) + ["config"]) && Exists(f, KlipperClonePath(id))
            && PrinterCfgPath(id) in f
            && f[PrinterCfgPath(id)] == (if PrinterCfgPath(id) in fs then fs[PrinterCfgPath(id)] else File(BasePrinterCfgFile))
  {
  }

  /**
   * Provisioning touches only paths under /home and keeps every existing entry; it succeeds
   * exactly when the three directories can be made and the clone, if one is needed, exits 0;
   * when it fails, the filesystem is what the directory step left.
   */
  lemma ProvisionFrame(answer: Answer, fs: FileMap, log: seq<Cmd>, id: int)
    ensures var o := ProvisionRun(answer, fs, log, id);
            && ChangesOnlyUnder(fs, o.fs, "home") && Extends(fs, o.fs)
            && (o.result.Ok? <==>
                  && InstanceDirs(fs, id).status.Ok?
                  && (Exists(fs, KlipperClonePath(id)) || answer(log, GitCloneCmd(KlipperClonePath(id))) == 0))
            && (o.result.Err? ==> o.fs == InstanceDirs(fs, id).fs)
            && (o.result.Err? && !o.result.error.CommandFailed? ==>
                  o.log == log && o.result.error == InstanceDirs(fs, id).status.error)
  {
    var dirs := InstanceDirs(fs, id);
    InstanceDirsUnderHome(fs, id);
    if dirs.status.Ok? {
      InstanceDirsAvoid(fs, id);
      CloneThenCfgFrame(answer, dirs.fs, log, id);
      ChangesOnlyUnderTrans(fs, dirs.fs, CloneThenCfg(answer, dirs.fs, log, id).fs, "home");
    }
  }

  /**
   * After successful provisioning, `config` is a directory, the clone exists, and
   * printer.cfg holds what it held before or, when it was absent, the base text.
   */
  lemma ProvisionWrites(answer: Answer, fs: FileMap, log: seq<Cmd>, id: int)
    requires ProvisionRun(answer, fs, log, id).result.Ok?
    ensures var f := ProvisionRun(answer, fs, log, id).fs;
            && IsDir(f, InstanceRoot(id) + ["config"]) && Exists(f, KlipperClonePath(id))
            && PrinterCfgPath(id) in f
            && f[PrinterCfgPath(id)] == (if PrinterCfgPath(id) in fs then fs[PrinterCfgPath(id)] else File(BasePrinterCfgFile))
  {
    InstanceDirsAvoid(fs, id);
    CloneThenCfgWrites(answer, InstanceDirs(fs, id).fs, log, id);
  }

  /** The provisioning half of `cmd_instance_create`. */
  method Provision(h: Machine, id: int) returns (r: Result<Path, Error>)
    modifies h
    ensures Outcome(h.fs, h.log, r) == ProvisionRun(h.answer, old(h.fs), old(h.log), id)
  {
    var root :- CreateInstanceDirs(h, id);
    InstanceDirsAvoid(old(h.fs), id);
    assert CloneCmds(h.fs, id) == CloneCmds(old(h.fs), id);
    r := CloneAndWriteCfg(h, id);
  }

  /** `clone_klipper(instance_id)` then `write_base_printer_cfg(config_dir)`. */
  method CloneAndWriteCfg(h: Machine, id: int) returns (r: Result<Path, Error>)
    requires IsDir(h.fs, InstanceRoot(id) + ["config"])
    modifies h
    ensures Outcome(h.fs, h.log, r) == CloneThenCfg(h.answer, old(h.fs), old(h.log), id)
  {
    var klipperDir :- CloneKlipper(h, id);
    var configDir := InstanceRoot(id) + ["config"];
    var written := WriteBasePrinterCfg(h, configDir);
    // config is a directory by now, so the write cannot raise
    assert written.Ok?;
    return Ok(configDir);
  }

  /** The two unit files a live create of instance `id` writes. */
  function CreateUnits(id: int): set<Path> {
    {UnitPath("klipper" + IntToString(id)), UnitPath(MoonrakerUnitName(id))}
  }

  /** The supervisor commands a live create issues when nothing fails. */
  function ServiceCmds(x: Instance): seq<Cmd> {
    ReloadEnableCmds(x.serviceName) + ReloadEnableCmds(MoonrakerUnitName(x.id))
  }

  /** `write_klipper_service(inst)` then `reload_and_enable(inst.service_name)`. */
  function KlipperUp(answer: Answer, fs: FileMap, log: seq<Cmd>, x: Instance): Outcome<()> {
    EffectThenRun(answer, log, Step(fs, KlipperService(fs, x)), ReloadEnableCmds(x.serviceName))
  }

  /** `write_moonraker_service(inst)` then `reload_and_enable` of the moonraker unit. */
  function MoonrakerUp(answer: Answer, fs: FileMap, log: seq<Cmd>, x: Instance): Outcome<()> {
    EffectThenRun(answer, log, MoonrakerService(fs, x), ReloadEnableCmds(MoonrakerUnitName(x.id)))
  }

  /**
   * The live half of `cmd_instance_create`: klipper unit, reload/enable/start, moonraker
   * unit, reload/enable/start, stopping at the first failure. Whatever happens, only the two
   * unit files are rewritten and at most they and moonraker.conf are added.
   */
  function ServicesUp(answer: Answer, fs: FileMap, log: seq<Cmd>, x: Instance): (o: Outcome<()>)
    ensures IssuedPrefix(log, ServiceCmds(x), o.log)
    ensures o.result.Ok? ==> o.log == log + ServiceCmds(x)
    ensures o.result.Err? ==> FailedLastCommand(answer, log, o.log, o.result.error)
  {
    var k := KlipperUp(answer, fs, log, x);
    if k.result.Err? then
      IssuedPrefixGrow(log, ReloadEnableCmds(x.serviceName), ReloadEnableCmds(MoonrakerUnitName(x.id)), k.log);
      k
    else
      var m := MoonrakerUp(answer, k.fs, k.log, x);
      IssuedPrefixThen(log, ReloadEnableCmds(x.serviceName), ReloadEnableCmds(MoonrakerUnitName(x.id)), m.log);
      m
  }

  /**
   * Whatever the outcome of the live half, only the two unit files may be rewritten, no
   * entry is removed, and at most the two units and moonraker.conf are added.
   */
  lemma ServicesUpFrame(answer: Answer, fs: FileMap, log: seq<Cmd>, x: Instance)
    ensures var f := ServicesUp(answer, fs, log, x).fs;
            && KeepsExcept(fs, f, {UnitPath(x.serviceName), UnitPath(MoonrakerUnitName(x.id))})
            && fs.Keys <= f.Keys
            && f.Keys <= fs.Keys + {UnitPath(x.serviceName), MoonrakerConfPath(x.configDir), UnitPath(MoonrakerUnitName(x.id))}
  {
    var k := KlipperUp(answer, fs, log, x);
    if k.result.Ok? {
      KeepsExceptTrans(fs, k.fs, MoonrakerUp(answer, k.fs, k.log, x).fs, {UnitPath(x.serviceName)}, {UnitPath(MoonrakerUnitName(x.id))});
    }
  }

  /**
   * The live half of create succeeds exactly when both unit writes succeed and all six
   * supervisor commands exit 0, each given the ones before it.
   */
  lemma ServicesUpSucceeds(answer: Answer, fs: FileMap, log: seq<Cmd>, x: Instance)
    ensures ServicesUp(answer, fs, log, x).result.Ok? <==>
              && KlipperService(fs, x).Ok? && MoonrakerService(KlipperService(fs, x).value, x).status.Ok?
              && AllZero(answer, log, ServiceCmds(x))
  {
    AllZeroAppend(answer, log, ReloadEnableCmds(x.serviceName), ReloadEnableCmds(MoonrakerUnitName(x.id)));
  }

  /**
   * A live half that fails without a failed command failed to write a unit file: the klipper
   * unit, before any command, or the moonraker unit after the klipper unit's three commands.
   */
  lemma ServicesUpFailure(answer: Answer, fs: FileMap, log: seq<Cmd>, x: Instance)
    ensures var o := ServicesUp(answer, fs, log, x);
            var kw := KlipperService(fs, x);
            o.result.Err? && !o.result.error.CommandFailed? ==>
              || (kw.Err? && o.result.error == kw.error && o.log == log)
              || (kw.Ok? && o.result == MoonrakerService(kw.value, x).status && o.log == log + ReloadEnableCmds(x.serviceName))
  {
    var kw := KlipperService(fs, x);
    var k := KlipperUp(answer, fs, log, x);
    if kw.Ok? && k.result.Ok? {
      assert k.fs == kw.value;
    }
  }

  /**
   * After a successful live half, the moonraker unit holds its template, moonraker.conf
   * exists, and the klipper unit holds its template unless the two unit names coincide.
   */
  lemma ServicesUpWrites(answer: Answer, fs: FileMap, log: seq<Cmd>, x: Instance)
    requires ServicesUp(answer, fs, log, x).result.Ok?
    ensures var f := ServicesUp(answer, fs, log, x).fs;
            && f == MoonrakerService(fs[UnitPath(x.serviceName) := File(KlipperUnitOf(x))], x).fs
            && UnitPath(MoonrakerUnitName(x.id)) in f
            && f[UnitPath(MoonrakerUnitName(x.id))] == File(MoonrakerUnitFile(x.id, MoonrakerConfPath(x.configDir), x.configDir))
            && Exists(f, MoonrakerConfPath(x.configDir))
            && (UnitPath(x.serviceName) != UnitPath(MoonrakerUnitName(x.id)) ==>
                  UnitPath(x.serviceName) in f && f[UnitPath(x.serviceName)] == File(KlipperUnitOf(x)))
  {
  }

  /** Klipper unit, then reload/enable/start of it. */
  method EnableKlipper(h: Machine, x: Instance) returns (r: Result<(), Error>)
    modifies h
    ensures Outcome(h.fs, h.log, r) == KlipperUp(h.answer, old(h.fs), old(h.log), x)
  {
    var unit :- WriteKlipperService(h, x);
    r := ReloadAndEnable(h, x.serviceName);
  }

  /** Moonraker unit (and moonraker.conf), then reload/enable/start of `inst.moonraker_service`. */
  method EnableMoonraker(h: Machine, x: Instance) returns (r: Result<(), Error>)
    requires x.moonrakerService == Some(MoonrakerUnitName(x.id))
    modifies h
    ensures Outcome(h.fs, h.log, r) == MoonrakerUp(h.answer, old(h.fs), old(h.log), x)
  {
    var unit :- WriteMoonrakerService(h, x);
    r := ReloadAndEnable(h, x.moonrakerService.value);
  }

  /** The live half of `cmd_instance_create`. */
  method EnableServices(h: Machine, x: Instance) returns (r: Result<(), Error>)
    requires x.moonrakerService == Some(MoonrakerUnitName(x.id))
    modifies h
    ensures Outcome(h.fs, h.log, r) == ServicesUp(h.answer, old(h.fs), old(h.log), x)
  {
    var k :- EnableKlipper(h, x);
    r := EnableMoonraker(h, x);
  }

  /** The commands a create issues when nothing fails: the clone if needed, then the services of a live create. */
  function CreateCmds(fs: FileMap, xs: seq<Instance>, sandbox: bool): seq<Cmd> {
    CloneCmds(fs, NextId(xs)) + (if sandbox then [] else ServiceCmds(CreatedRecord(xs, sandbox)))
  }

  /** The record a live create enables services for, before it is marked active. */
  function LiveRecord(xs: seq<Instance>): Instance {
    NewRecord(NextId(xs), FirstFreePort(KlipperPorts(xs), KlipperPortBase), FirstFreePort(MoonrakerPorts(xs), MoonrakerPortBase), false)
  }

  /**
   * The outcome of `cmd_instance_create` on the host: provision, then the services unless
   * sandboxed. At most the create's commands are issued, in order; on success all of them
   * are, and the record is the one the registry gets; a failure is the last command issued.
   */
  function CreateRun(answer: Answer, fs: FileMap, log: seq<Cmd>, xs: seq<Instance>, sandbox: bool): (o: Outcome<Instance>)
    ensures IssuedPrefix(log, CreateCmds(fs, xs, sandbox), o.log)
    ensures o.result.Ok? ==> o.result.value == CreatedRecord(xs, sandbox) && o.log == log + CreateCmds(fs, xs, sandbox)
    ensures o.result.Err? ==> FailedLastCommand(answer, log, o.log, o.result.error)
  {
    var id := NextId(xs);
    var p := ProvisionRun(answer, fs, log, id);
    var rest := if sandbox then [] else ServiceCmds(CreatedRecord(xs, sandbox));
    var l := if sandbox then Outcome(p.fs, p.log, Ok(CreatedRecord(xs, true))) else LiveCreate(answer, p.fs, p.log, xs);
    IssuedNoneOrAll(p.log, rest);
    IssuedThen(answer, log, CloneCmds(fs, id), rest, p, l);
    assert CreateCmds(fs, xs, sandbox) == CloneCmds(fs, id) + rest;
    if p.result.Err? then Outcome(p.fs, p.log, Err(p.result.error)) else l
  }

  /** The live half of a create: the services for the new record, which is then marked active. */
  function LiveCreate(answer: Answer, fs: FileMap, log: seq<Cmd>, xs: seq<Instance>): (o: Outcome<Instance>)
    ensures IssuedPrefix(log, ServiceCmds(CreatedRecord(xs, false)), o.log)
    ensures o.result.Ok? ==> o.result.value == CreatedRecord(xs, false) && o.log == log + ServiceCmds(CreatedRecord(xs, false))
    ensures o.result.Err? ==> FailedLastCommand(answer, log, o.log, o.result.error)
  {
    var x := LiveRecord(xs);
    var s := ServicesUp(answer, fs, log, x);
    CreatedUnitsLive(xs);
    if s.result.Ok? then Outcome(s.fs, s.log, Ok(x.(active := true)))
    else Outcome(s.fs, s.log, Err(s.result.error))
  }

  /**
   * A create succeeds exactly when provisioning does and, unless sandboxed, so does the live
   * half run on what provisioning left.
   */
  lemma CreateSucceeds(answer: Answer, fs: FileMap, log: seq<Cmd>, xs: seq<Instance>, sandbox: bool)
    ensures var p := ProvisionRun(answer, fs, log, NextId(xs));
            CreateRun(answer, fs, log, xs, sandbox).result.Ok? <==>
              && p.result.Ok?
              && (sandbox || ServicesUp(answer, p.fs, log + CloneCmds(fs, NextId(xs)), LiveRecord(xs)).result.Ok?)
  {
  }

  /**
   * The live half of a create keeps every entry but the two unit files, removes nothing,
   * and adds at most the two units and moonraker.conf.
   */
  lemma LiveCreateFrame(answer: Answer, fs: FileMap, log: seq<Cmd>, xs: seq<Instance>)
    ensures var f := LiveCreate(answer, fs, log, xs).fs;
            && KeepsExcept(fs, f, CreateUnits(NextId(xs)))
            && f.Keys <= fs.Keys + {MoonrakerConfPath(LiveRecord(xs).configDir)} + CreateUnits(NextId(xs))
  {
    var x := LiveRecord(xs);
    CreatedUnitsLive(xs);
    ServicesUpFrame(answer, fs, log, x);
    assert LiveCreate(answer, fs, log, xs).fs == ServicesUp(answer, fs, log, x).fs;
  }

  /** The live half of a create leaves everything under /home as it was, except that moonraker.conf, which lies there, may be added. */
  lemma LiveCreateKeepsHome(answer: Answer, fs: FileMap, log: seq<Cmd>, xs: seq<Instance>)
    ensures var f := LiveCreate(answer, fs, log, xs).fs;
            && MoonrakerConfPath(LiveRecord(xs).configDir)[0] == "home"
            && forall q :: q in fs && q != [] && q[0] == "home" ==> q in f && f[q] == fs[q]
  {
    CreatedUnitsLive(xs);
    LiveCreateFrame(answer, fs, log, xs);
    KeepsUnder(fs, LiveCreate(answer, fs, log, xs).fs, CreateUnits(NextId(xs)), "home");
  }

  /** A sandbox create touches only /home and keeps every entry. */
  lemma CreateFrameSandbox(answer: Answer, fs: FileMap, log: seq<Cmd>, xs: seq<Instance>)
    ensures var f := CreateRun(answer, fs, log, xs, true).fs;
            ChangesOnlyUnder(fs, f, "home") && Extends(fs, f)
  {
    ProvisionFrame(answer, fs, log, NextId(xs));
  }

  /**
   * A live create keeps every entry but the two unit files and adds nothing else outside
   * /home.
   */
  lemma CreateFrameLive(answer: Answer, fs: FileMap, log: seq<Cmd>, xs: seq<Instance>)
    ensures var f := CreateRun(answer, fs, log, xs, false).fs;
            && KeepsExcept(fs, f, CreateUnits(NextId(xs)))
            && forall q :: q in f && q !in fs ==> (q != [] && q[0] == "home") || q in CreateUnits(NextId(xs))
  {
    var p := ProvisionRun(answer, fs, log, NextId(xs));
    ProvisionFrame(answer, fs, log, NextId(xs));
    if p.result.Ok? {
      var l := LiveCreate(answer, p.fs, p.log, xs);
      LiveCreateFrame(answer, p.fs, p.log, xs);
      CreatedUnitsLive(xs);
      UnderThenKeeps(fs, p.fs, l.fs, "home", CreateUnits(NextId(xs)),
                     {MoonrakerConfPath(LiveRecord(xs).configDir)} + CreateUnits(NextId(xs)));
    }
  }

  /** After a successful live half, both unit files hold their templates for the created record. */
  lemma LiveCreateWrites(answer: Answer, fs: FileMap, log: seq<Cmd>, xs: seq<Instance>)
    requires LiveCreate(answer, fs, log, xs).result.Ok?
    ensures var f := LiveCreate(answer, fs, log, xs).fs;
            var x := CreatedRecord(xs, false);
            && UnitPath(x.serviceName) in f && f[UnitPath(x.serviceName)] == File(KlipperUnitOf(x))
            && UnitPath(MoonrakerUnitName(x.id)) in f
            && f[UnitPath(MoonrakerUnitName(x.id))] == File(MoonrakerUnitFile(x.id, MoonrakerConfPath(x.configDir), x.configDir))
  {
    ServicesUpWrites(answer, fs, log, LiveRecord(xs));
    CreatedUnitsLive(xs);
  }

  /** The three cases of a create: provisioning failed, a sandbox create, a live create. */
  lemma CreateRunCases(answer: Answer, fs: FileMap, log: seq<Cmd>, xs: seq<Instance>, sandbox: bool)
    ensures var p := ProvisionRun(answer, fs, log, NextId(xs));
            var o := CreateRun(answer, fs, log, xs, sandbox);
            && (p.result.Err? ==> o == Outcome(p.fs, p.log, Err(p.result.error)))
            && (p.result.Ok? && sandbox ==> o == Outcome(p.fs, p.log, Ok(CreatedRecord(xs, true))))
            && (p.result.Ok? && !sandbox ==> o == LiveCreate(answer, p.fs, p.log, xs))
  {
  }

  /** After a successful create the config directory, the clone and printer.cfg exist. */
  lemma CreateWritesProvisioned(answer: Answer, fs: FileMap, log: seq<Cmd>, xs: seq<Instance>, sandbox: bool)
    requires CreateRun(answer, fs, log, xs, sandbox).result.Ok?
    ensures var o := CreateRun(answer, fs, log, xs, sandbox);
            var x := o.result.value;
            && IsDir(o.fs, x.configDir) && Exists(o.fs, x.klipperDir)
            && Exists(o.fs, x.configDir + ["printer.cfg"])
  {
    var id := NextId(xs);
    var p := ProvisionRun(answer, fs, log, id);
    CreateRunCases(answer, fs, log, xs, sandbox);
    ProvisionWrites(answer, fs, log, id);
    if !sandbox {
      LiveCreateKeepsHome(answer, p.fs, p.log, xs);
    }
  }

  /** After a successful live create both unit files hold their templates. */
  lemma CreateWritesUnits(answer: Answer, fs: FileMap, log: seq<Cmd>, xs: seq<Instance>)
    requires CreateRun(answer, fs, log, xs, false).result.Ok?
    ensures var o := CreateRun(answer, fs, log, xs, false);
            var x := o.result.value;
            && UnitPath(x.serviceName) in o.fs && o.fs[UnitPath(x.serviceName)] == File(KlipperUnitOf(x))
            && UnitPath(MoonrakerUnitName(x.id)) in o.fs
            && o.fs[UnitPath(MoonrakerUnitName(x.id))] == File(MoonrakerUnitFile(x.id, MoonrakerConfPath(x.configDir), x.configDir))
  {
    var p := ProvisionRun(answer, fs, log, NextId(xs));
    LiveCreateWrites(answer, p.fs, p.log, xs);
  }

  /** Facts about the live record of a create that the unit steps rely on. */
  lemma CreatedUnitsLive(xs: seq<Instance>)
    ensures var x := LiveRecord(xs);
            && x.(active := true) == CreatedRecord(xs, false)
            && ServiceCmds(x) == ServiceCmds(CreatedRecord(xs, false))
            && KlipperUnitOf(x) == KlipperUnitOf(CreatedRecord(xs, false))
            && {UnitPath(x.serviceName), UnitPath(MoonrakerUnitName(x.id))} == CreateUnits(NextId(xs))
            && MoonrakerConfPath(x.configDir)[0] == "home" && x.configDir[0] == "home"
            && UnitPath(x.serviceName) != UnitPath(MoonrakerUnitName(x.id))
  {
    var id := NextId(xs);
    var a := "klipper" + IntToString(id) + ".service";
    var b := MoonrakerUnitName(id) + ".service";
    assert a[0] == 'k' && b[0] == 'm';
    assert UnitPath("klipper" + IntToString(id))[3] == a;
    assert UnitPath(MoonrakerUnitName(id))[3] == b;
  }

  /**
   * `cmd_instance_create`: allocate, provision, enable services unless sandboxed, then
   * append the record and save. Anything raised before the save leaves the registry as it was.
   */
  method InstanceCreate(h: Machine, store: Store, sandbox: bool) returns (r: Result<Instance, Error>)
    modifies h, store
    ensures Outcome(h.fs, h.log, r) == CreateRun(h.answer, old(h.fs), old(h.log), old(store.Contents()), sandbox)
    ensures r.Ok? ==> store.Contents() == old(store.Contents()) + [r.value]
    ensures r.Ok? && RegistryDistinct(old(store.Contents())) ==> RegistryDistinct(store.Contents())
    ensures r.Err? ==> store.saved == old(store.saved)
  {
    var xs := store.Load();
    var newId := NextId(xs);
    var kPort, mPort := AllocatePorts(xs, KlipperPortBase, MoonrakerPortBase);
    var configDir :- Provision(h, newId);
    var inst := NewRecord(newId, kPort, mPort, sandbox);
    if !sandbox {
      var enabled :- EnableServices(h, inst);
      inst := inst.(active := true);
    }
    store.Save(xs + [inst]);
    if RegistryDistinct(xs) {
      AppendAllocatedKeepsDistinct(xs, inst);
    }
    return Ok(inst);
  }

  /** How `instance-list` shows a record. */
  datatype ListRow = ListRow(id: int, name: string, configDir: Path, serviceName: string,
                             klipperPort: int, moonrakerPort: int, status: string)

  /** The status shown by list comes from the stored `active` flag alone, not from systemd. */
  function DisplayStatus(active: bool): (s: string)
    ensures s == "active" <==> active
    ensures s == "inactive" <==> !active
  {
    if active then "active" else "inactive"
  }

  function RowOf(x: Instance): ListRow {
    ListRow(x.id, x.name, x.configDir, x.serviceName, x.klipperPort, x.moonrakerPort, DisplayStatus(x.active))
  }

  /** `cmd_instance_list`: one row per registered record, in registry order. */
  method InstanceList(store: Store) returns (rows: seq<ListRow>)
    ensures |rows| == |store.Contents()|
    ensures forall i :: 0 <= i < |rows| ==>
              && rows[i].id == store.Contents()[i].id
              && rows[i].klipperPort == store.Contents()[i].klipperPort
              && rows[i].moonrakerPort == store.Contents()[i].moonrakerPort
              && rows[i].status == DisplayStatus(store.Contents()[i].active)
              && rows[i] == RowOf(store.Contents()[i])
  {
    var xs := store.Load();
    rows := [];
    if xs == [] {
      return;
    }
    for i := 0 to |xs|
      invariant |rows| == i
      invariant forall j :: 0 <= j < i ==> rows[j] == RowOf(xs[j])
    {
      rows := rows + [RowOf(xs[i])];
    }
  }

  datatype InstallOutcome = InstallNoSuchInstance | Installed

  const FluxpathRoot: Path := Home + ["FluxPath"]
  const InstallerPath: Path := FluxpathRoot + ["fluxpath_installer.sh"]

  /** fp_core/installer_bridge.py: `bash <installer>` with CONFIG_DIR set. */
  function InstallerCmd(configDir: Path): Cmd {
    Cmd(["bash", PathString(InstallerPath)], map["CONFIG_DIR" := PathString(configDir)])
  }

  /**
   * `cmd_install`: an unknown id is reported and nothing runs; a missing installer raises;
   * otherwise the installer runs once against the instance's config directory.
   */
  method Install(h: Machine, store: Store, id: int) returns (r: Result<InstallOutcome, Error>)
    modifies h`log
    ensures GetInstance(store.Contents(), id).None? ==> r == Ok(InstallNoSuchInstance) && h.log == old(h.log)
    ensures GetInstance(store.Contents(), id).Some? && !Exists(h.fs, InstallerPath) ==>
              r == Err(FileNotFound(InstallerPath)) && h.log == old(h.log)
    ensures GetInstance(store.Contents(), id).Some? && Exists(h.fs, InstallerPath) ==>
              var cmd := InstallerCmd(GetInstance(store.Contents(), id).value.configDir);
              && h.log == old(h.log) + [cmd]
              && (r.Ok? <==> h.answer(old(h.log), cmd) == 0)
              && (r.Ok? ==> r.value == Installed)
              && (r.Err? ==> r.error == CommandFailed(cmd, h.answer(old(h.log), cmd)))
  {
    var xs := store.Load();
    var target := GetInstance(xs, id);
    if target.None? {
      return Ok(InstallNoSuchInstance);
    }
    if !Exists(h.fs, InstallerPath) {
      return Err(FileNotFound(InstallerPath));
    }
    var run :- h.Exec(InstallerCmd(target.value.configDir), true);
    return Ok(Installed);
  }

  /** The restarts `cmd_instance_restart` issues for a live record: each named unit that is set. */
  function RestartCmds(x: Instance): seq<Cmd> {
    (if x.serviceName != "" then [Systemctl(["restart", x.serviceName])] else [])
    + (if x.moonrakerService.Some? && x.moonrakerService.value != ""
       then [Systemctl(["restart", x.moonrakerService.value])] else [])
  }

  datatype RestartOutcome = RestartNoSuchInstance | RestartSkippedSandbox | Restarted

  /** The restarts of a live record, as one checked run of `RestartCmds`. */
  method RestartUnits(h: Machine, t: Instance) returns (r: Result<(), Error>)
    modifies h`log
    ensures h.log == old(h.log) + RunChecked(h.answer, old(h.log), RestartCmds(t)).issued
    ensures r == RunChecked(h.answer, old(h.log), RestartCmds(t)).outcome
  {
    ghost var log0 := h.log;
    var moon := if t.moonrakerService.Some? && t.moonrakerService.value != ""
                then [Systemctl(["restart", t.moonrakerService.value])] else [];
    if t.serviceName != "" {
      var done := RestartService(h, t.serviceName);
      RunCheckedFirst(h.answer, log0, Systemctl(["restart", t.serviceName]), moon);
      if done.Err? {
        return Err(done.error);
      }
    }
    ghost var log1 := h.log;
    assert RestartCmds(t) == (if t.serviceName != "" then [Systemctl(["restart", t.serviceName])] else []) + moon;
    if t.moonrakerService.Some? && t.moonrakerService.value != "" {
      var done := RestartService(h, t.moonrakerService.value);
      RunCheckedFirst(h.answer, log1, Systemctl(["restart", t.moonrakerService.value]), []);
      if done.Err? {
        return Err(done.error);
      }
    }
    return Ok(());
  }

  /**
   * `cmd_instance_restart`: unknown ids and sandbox instances issue nothing; otherwise each
   * named unit is restarted, and a failing restart raises before the next one.
   */
  method InstanceRestart(h: Machine, store: Store, id: int) returns (r: Result<RestartOutcome, Error>)
    modifies h`log
    ensures GetInstance(store.Contents(), id).None? ==> r == Ok(RestartNoSuchInstance) && h.log == old(h.log)
    ensures GetInstance(store.Contents(), id).Some? && GetInstance(store.Contents(), id).value.sandbox ==>
              r == Ok(RestartSkippedSandbox) && h.log == old(h.log)
    ensures GetInstance(store.Contents(), id).Some? && !GetInstance(store.Contents(), id).value.sandbox ==>
              var run := RunChecked(h.answer, old(h.log), RestartCmds(GetInstance(store.Contents(), id).value));
              && h.log == old(h.log) + run.issued
              && (r.Ok? <==> run.outcome.Ok?)
              && (r.Ok? ==> r.value == Restarted)
              && (r.Err? ==> r.error == run.outcome.error)
  {
    var xs := store.Load();
    var target := GetInstance(xs, id);
    if target.None? {
      return Ok(RestartNoSuchInstance);
    }
    var t := target.value;
    if t.sandbox {
      return Ok(RestartSkippedSandbox);
    }
    var done :- RestartUnits(h, t);
    return Ok(Restarted);
  }

  /** Whether the record names a moonraker unit (`if target.moonraker_service`). */
  predicate HasMoonrakerUnit(x: Instance) {
    x.moonrakerService.Some? && x.moonrakerService.value != ""
  }

  /** The supervisor commands delete issues for a live record when nothing fails. */
  function TeardownCmds(x: Instance): seq<Cmd> {
    (if x.serviceName != "" then StopCmds(x.serviceName) else [])
    + (if HasMoonrakerUnit(x) then StopCmds(x.moonrakerService.value) else [])
  }

  /** The unit files delete removes for a live record: one per unit the record names. */
  function UnitPaths(x: Instance): set<Path> {
    (if x.serviceName != "" then {UnitPath(x.serviceName)} else {})
    + (if HasMoonrakerUnit(x) then {UnitPath(x.moonrakerService.value)} else {})
  }

  /**
   * The service half of `cmd_instance_delete` for a live record: `stop_and_disable` of the
   * klipper unit, then of the moonraker unit, each only when the record names it. The first
   * failure ends the delete.
   */
  function TeardownRun(answer: Answer, fs: FileMap, log: seq<Cmd>, x: Instance): Outcome<()> {
    if x.serviceName == "" then
      if HasMoonrakerUnit(x) then StopRun(answer, fs, log, x.moonrakerService.value)
      else Outcome(fs, log, Ok(()))
    else
      var k := StopRun(answer, fs, log, x.serviceName);
      if k.result.Err? || !HasMoonrakerUnit(x) then k
      else StopRun(answer, k.fs, k.log, x.moonrakerService.value)
  }

  /**
   * The teardown issues a prefix of its commands: all of them when it succeeds, and up to
   * the failing command when one fails.
   */
  lemma TeardownIssues(answer: Answer, fs: FileMap, log: seq<Cmd>, x: Instance)
    ensures var o := TeardownRun(answer, fs, log, x);
            && IssuedPrefix(log, TeardownCmds(x), o.log)
            && (o.result.Ok? ==> o.log == log + TeardownCmds(x))
            && (o.result.Err? ==> FailedLastCommand(answer, log, o.log, o.result.error))
  {
    if x.serviceName == "" {
      var mc := if HasMoonrakerUnit(x) then StopCmds(x.moonrakerService.value) else [];
      assert TeardownCmds(x) == mc;
      assert log + [] == log;
      IssuedNoneOrAll(log, []);
    } else if !HasMoonrakerUnit(x) {
      assert TeardownCmds(x) == StopCmds(x.serviceName);
    } else {
      TeardownIssuesBoth(answer, fs, log, x);
    }
  }

  lemma TeardownIssuesBoth(answer: Answer, fs: FileMap, log: seq<Cmd>, x: Instance)
    requires x.serviceName != "" && HasMoonrakerUnit(x)
    ensures var o := TeardownRun(answer, fs, log, x);
            && IssuedPrefix(log, TeardownCmds(x), o.log)
            && (o.result.Ok? ==> o.log == log + TeardownCmds(x))
            && (o.result.Err? ==> FailedLastCommand(answer, log, o.log, o.result.error))
  {
    var k := StopRun(answer, fs, log, x.serviceName);
    var m := if k.result.Err? then k else StopRun(answer, k.fs, k.log, x.moonrakerService.value);
    IssuedThen(answer, log, StopCmds(x.serviceName), StopCmds(x.moonrakerService.value), k, m);
  }

  /**
   * What the teardown may do to the filesystem: it only removes files, none but the record's
   * unit files, and on success exactly those are gone.
   */
  lemma TeardownFrame(answer: Answer, fs: FileMap, log: seq<Cmd>, x: Instance)
    ensures var o := TeardownRun(answer, fs, log, x);
            RemovesOnlyFiles(fs, o.fs) && KeepsExcept(fs, o.fs, UnitPaths(x))
  {
    var o := TeardownRun(answer, fs, log, x);
    if x.serviceName != "" {
      var uK := UnitPath(x.serviceName);
      var k := StopRun(answer, fs, log, x.serviceName);
      if k.result.Ok? && HasMoonrakerUnit(x) {
        var uM := UnitPath(x.moonrakerService.value);
        assert o == StopRun(answer, k.fs, k.log, x.moonrakerService.value);
        KeepsExceptTrans(fs, k.fs, o.fs, {uK}, {uM});
        RemovesOnlyFilesTrans(fs, k.fs, o.fs);
      } else {
        assert o.fs == k.fs;
      }
    } else if HasMoonrakerUnit(x) {
      assert o == StopRun(answer, fs, log, x.moonrakerService.value);
    } else {
      assert o == Outcome(fs, log, Ok(()));
    }
  }

  /** A teardown that succeeds removed exactly the record's unit files. */
  lemma TeardownRemovesUnits(answer: Answer, fs: FileMap, log: seq<Cmd>, x: Instance)
    ensures var o := TeardownRun(answer, fs, log, x);
            o.result.Ok? ==> o.fs == fs - UnitPaths(x)
  {
    var uK: set<Path> := if x.serviceName != "" then {UnitPath(x.serviceName)} else {};
    var uM: set<Path> := if HasMoonrakerUnit(x) then {UnitPath(x.moonrakerService.value)} else {};
    var k := if x.serviceName != "" then StopRun(answer, fs, log, x.serviceName) else Outcome(fs, log, Ok(()));
    assert k.result.Ok? ==> k.fs == fs - uK;
    WithoutTwice(fs, uK, uM);
  }

  /**
   * When the teardown succeeds, in terms of the filesystem and the supervisor's answers:
   * each named unit file is neither a directory nor below a file, and each daemon-reload
   * exits 0.
   */
  predicate TeardownClean(answer: Answer, fs: FileMap, log: seq<Cmd>, x: Instance) {
    var kc := if x.serviceName != "" then StopCmds(x.serviceName) else [];
    && (x.serviceName != "" ==>
          && !IsDir(fs, UnitPath(x.serviceName)) && !ThroughFile(fs, UnitPath(x.serviceName))
          && answer(log + StopCmds(x.serviceName)[..2], Systemctl(["daemon-reload"])) == 0)
    && (HasMoonrakerUnit(x) ==>
          && !IsDir(fs, UnitPath(x.moonrakerService.value)) && !ThroughFile(fs, UnitPath(x.moonrakerService.value))
          && answer(log + kc + StopCmds(x.moonrakerService.value)[..2], Systemctl(["daemon-reload"])) == 0)
  }

  lemma TeardownSucceeds(answer: Answer, fs: FileMap, log: seq<Cmd>, x: Instance)
    ensures TeardownRun(answer, fs, log, x).result.Ok? <==> TeardownClean(answer, fs, log, x)
  {
    if x.serviceName != "" {
      var k := StopRun(answer, fs, log, x.serviceName);
      if k.result.Ok? && HasMoonrakerUnit(x) {
        var uK := UnitPath(x.serviceName);
        var uM := UnitPath(x.moonrakerService.value);
        ThroughFileWithout(fs, uM, uK);
        assert IsDir(k.fs, uM) <==> IsDir(fs, uM);
      }
    } else {
      assert log + [] == log;
    }
  }

  /**
   * A teardown that fails without a failed command met a directory, or a file on the way,
   * at one of the record's unit paths.
   */
  lemma TeardownFailure(answer: Answer, fs: FileMap, log: seq<Cmd>, x: Instance)
    ensures var o := TeardownRun(answer, fs, log, x);
            o.result.Err? && !o.result.error.CommandFailed? ==>
              exists u :: u in UnitPaths(x) && o.result.error == (if IsDir(fs, u) then IsADirectory(u) else NotADirectory(u))
  {
    var o := TeardownRun(answer, fs, log, x);
    if o.result.Err? && !o.result.error.CommandFailed? {
      if x.serviceName != "" && StopRun(answer, fs, log, x.serviceName).result.Err? {
        assert UnitPath(x.serviceName) in UnitPaths(x);
      } else {
        var k := if x.serviceName != "" then StopRun(answer, fs, log, x.serviceName) else Outcome(fs, log, Ok(()));
        var uM := UnitPath(x.moonrakerService.value);
        if x.serviceName != "" {
          ThroughFileWithout(fs, uM, UnitPath(x.serviceName));
        }
        assert IsDir(k.fs, uM) <==> IsDir(fs, uM);
        assert uM in UnitPaths(x);
      }
    }
  }

  /**
   * `stop_and_disable` for each named unit of a live record, as the service half of
   * `cmd_instance_delete` performs it.
   */
  method StopServices(h: Machine, x: Instance) returns (r: Result<(), Error>)
    modifies h
    ensures Outcome(h.fs, h.log, r) == TeardownRun(h.answer, old(h.fs), old(h.log), x)
  {
    if x.serviceName != "" {
      r := StopAndDisable(h, x.serviceName);
      if r.Err? {
        return;
      }
    }
    if HasMoonrakerUnit(x) {
      r := StopAndDisable(h, x.moonrakerService.value);
    } else {
      r := Ok(());
    }
  }

  /** The two `rmtree(..., ignore_errors=True)` calls of delete: the instance root, then the klipper clone if present. */
  function RemoveInstanceFiles(fs: FileMap, x: Instance): (r: FileMap)
    ensures Shrinks(fs, r)
    ensures forall q :: q in r <==> q in fs && !(IsDir(fs, Parent(x.configDir)) && IsPrefix(Parent(x.configDir), q))
                                            && !(IsDir(fs, x.klipperDir) && IsPrefix(x.klipperDir, q))
    ensures forall q :: q in r ==> !(IsDir(fs, Parent(x.configDir)) && IsPrefix(Parent(x.configDir), q))
    ensures forall q :: q in r ==> !(IsDir(fs, x.klipperDir) && IsPrefix(x.klipperDir, q))
  {
    var root := Parent(x.configDir);
    var f1 := RemoveTree(fs, root);
    var r := if Exists(f1, x.klipperDir) then RemoveTree(f1, x.klipperDir) else f1;
    forall q | q in r && IsDir(fs, x.klipperDir) && IsPrefix(x.klipperDir, q)
      ensures false
    {
      if IsDir(fs, root) && IsPrefix(root, x.klipperDir) {
        IsPrefixTrans(root, x.klipperDir, q);
      }
    }
    r
  }

  /**
   * Removing the instance's trees after only files were removed: still a shrink of the
   * original, and nothing is left below a directory the instance root or the clone was.
   */
  lemma RemoveAfterStop(fs0: FileMap, fs1: FileMap, x: Instance)
    requires RemovesOnlyFiles(fs0, fs1)
    ensures Shrinks(fs0, RemoveInstanceFiles(fs1, x))
    ensures forall q :: q in RemoveInstanceFiles(fs1, x) ==> !(IsDir(fs0, Parent(x.configDir)) && IsPrefix(Parent(x.configDir), q))
    ensures forall q :: q in RemoveInstanceFiles(fs1, x) ==> !(IsDir(fs0, x.klipperDir) && IsPrefix(x.klipperDir, q))
  {
    assert IsDir(fs0, Parent(x.configDir)) ==> IsDir(fs1, Parent(x.configDir));
    assert IsDir(fs0, x.klipperDir) ==> IsDir(fs1, x.klipperDir);
  }

  /** The two `rmtree` calls of delete, applied to the machine. */
  method RemoveFiles(h: Machine, x: Instance)
    modifies h`fs
    ensures h.fs == RemoveInstanceFiles(old(h.fs), x)
  {
    h.fs := RemoveTree(h.fs, Parent(x.configDir));
    if Exists(h.fs, x.klipperDir) {
      h.fs := RemoveTree(h.fs, x.klipperDir);
    }
  }

  datatype DeleteOutcome = DeleteNoSuchInstance | RefusedWithoutForce | Deleted

  /**
   * The outcome of `cmd_instance_delete` on the machine: unknown ids and a missing `--force`
   * change nothing; otherwise a live record's services are torn down, and unless that fails
   * the instance root and the klipper clone are removed.
   */
  function DeleteRun(answer: Answer, fs: FileMap, log: seq<Cmd>, xs: seq<Instance>, id: int, force: bool)
    : (o: Outcome<DeleteOutcome>)
    ensures GetInstance(xs, id).None? ==> o == Outcome(fs, log, Ok(DeleteNoSuchInstance))
    ensures GetInstance(xs, id).Some? && !force ==> o == Outcome(fs, log, Ok(RefusedWithoutForce))
    ensures GetInstance(xs, id).Some? && force && o.result.Ok? ==> o.result.value == Deleted
  {
    match GetInstance(xs, id)
    case None => Outcome(fs, log, Ok(DeleteNoSuchInstance))
    case Some(x) =>
      if !force then Outcome(fs, log, Ok(RefusedWithoutForce))
      else if x.sandbox then Outcome(RemoveInstanceFiles(fs, x), log, Ok(Deleted))
      else
        var t := TeardownRun(answer, fs, log, x);
        if t.result.Err? then Outcome(t.fs, t.log, Err(t.result.error))
        else Outcome(RemoveInstanceFiles(t.fs, x), t.log, Ok(Deleted))
  }

  /**
   * A forced delete of a known record only shrinks the filesystem. A sandbox record's trees
   * go without a command; a failed delete removed at most the record's unit files.
   */
  lemma DeleteFrame(answer: Answer, fs: FileMap, log: seq<Cmd>, xs: seq<Instance>, id: int)
    requires GetInstance(xs, id).Some?
    ensures var x := GetInstance(xs, id).value;
            var o := DeleteRun(answer, fs, log, xs, id, true);
            && Shrinks(fs, o.fs)
            && (x.sandbox ==> o == Outcome(RemoveInstanceFiles(fs, x), log, Ok(Deleted)))
            && (o.result.Err? ==> RemovesOnlyFiles(fs, o.fs) && KeepsExcept(fs, o.fs, UnitPaths(x)))
  {
    var x := GetInstance(xs, id).value;
    if !x.sandbox {
      var t := TeardownRun(answer, fs, log, x);
      TeardownFrame(answer, fs, log, x);
      assert Shrinks(t.fs, RemoveInstanceFiles(t.fs, x));
    }
  }

  /**
   * A forced delete of a known live record issues the teardown commands in order: all of
   * them on success, after which the unit files and then the trees are gone; a failure is
   * the last command issued.
   */
  lemma DeleteIssues(answer: Answer, fs: FileMap, log: seq<Cmd>, xs: seq<Instance>, id: int)
    requires GetInstance(xs, id).Some? && !GetInstance(xs, id).value.sandbox
    ensures var x := GetInstance(xs, id).value;
            var o := DeleteRun(answer, fs, log, xs, id, true);
            && IssuedPrefix(log, TeardownCmds(x), o.log)
            && (o.result.Ok? ==> o.log == log + TeardownCmds(x) && o.fs == RemoveInstanceFiles(fs - UnitPaths(x), x))
            && (o.result.Err? ==> FailedLastCommand(answer, log, o.log, o.result.error))
  {
    TeardownRemovesUnits(answer, fs, log, GetInstance(xs, id).value);
    TeardownIssues(answer, fs, log, GetInstance(xs, id).value);
  }

  /**
   * After a successful forced delete nothing is left below a path that was the instance root
   * or the klipper clone as a directory.
   */
  lemma DeleteRemovesTrees(answer: Answer, fs: FileMap, log: seq<Cmd>, xs: seq<Instance>, id: int)
    requires GetInstance(xs, id).Some?
    ensures var x := GetInstance(xs, id).value;
            var o := DeleteRun(answer, fs, log, xs, id, true);
            o.result.Ok? ==>
              && (forall q :: q in o.fs ==> !(IsDir(fs, Parent(x.configDir)) && IsPrefix(Parent(x.configDir), q)))
              && (forall q :: q in o.fs ==> !(IsDir(fs, x.klipperDir) && IsPrefix(x.klipperDir, q)))
  {
    var x := GetInstance(xs, id).value;
    if x.sandbox {
      RemoveAfterStop(fs, fs, x);
    } else {
      TeardownFrame(answer, fs, log, x);
      RemoveAfterStop(fs, TeardownRun(answer, fs, log, x).fs, x);
    }
  }

  /** A forced delete of a known record succeeds exactly when it is a sandbox or its teardown is clean. */
  lemma DeleteSucceeds(answer: Answer, fs: FileMap, log: seq<Cmd>, xs: seq<Instance>, id: int)
    requires GetInstance(xs, id).Some?
    ensures var x := GetInstance(xs, id).value;
            DeleteRun(answer, fs, log, xs, id, true).result.Ok? <==> x.sandbox || TeardownClean(answer, fs, log, x)
  {
    TeardownSucceeds(answer, fs, log, GetInstance(xs, id).value);
  }

  /**
   * `cmd_instance_delete`: its effect on the machine is `DeleteRun`; the registry is saved
   * without the record exactly when the delete went through, and is untouched otherwise.
   */
  method InstanceDelete(h: Machine, store: Store, id: int, force: bool) returns (r: Result<DeleteOutcome, Error>)
    modifies h, store
    ensures Outcome(h.fs, h.log, r) == DeleteRun(h.answer, old(h.fs), old(h.log), old(store.Contents()), id, force)
    ensures r == Ok(Deleted) ==> store.Contents() == Without(old(store.Contents()), id)
    ensures r != Ok(Deleted) ==> store.saved == old(store.saved)
  {
    var xs := store.Load();
    var target := GetInstance(xs, id);
    if target.None? {
      return Ok(DeleteNoSuchInstance);
    }
    if !force {
      return Ok(RefusedWithoutForce);
    }
    var x := target.value;
    if !x.sandbox {
      var stopped :- StopServices(h, x);
    }
    RemoveFiles(h, x);
    store.Save(Without(xs, x.id));
    return Ok(Deleted);
  }

  /** What `cmd_instance_diag` reports for one record. */
  datatype Diagnosis =
    | DiagNoSuchInstance
    | Report(configDirExists: bool, klipperDirExists: bool,
             services: Option<(ServiceState, ServiceState)>,
             moonrakerConfPresent: bool, printerCfgPresent: bool)

  /**
   * `cmd_instance_diag`: reads the filesystem, queries `is-active` for each named unit of a
   * live record (an unnamed one reads as unknown) and issues nothing else.
   */
  method InstanceDiag(h: Machine, store: Store, id: int) returns (d: Diagnosis)
    modifies h`log
    ensures GetInstance(store.Contents(), id).None? ==> d == DiagNoSuchInstance && h.log == old(h.log)
    ensures GetInstance(store.Contents(), id).Some? ==>
              var x := GetInstance(store.Contents(), id).value;
              && d.Report?
              && d.configDirExists == Exists(h.fs, x.configDir)
              && d.klipperDirExists == Exists(h.fs, x.klipperDir)
              && d.moonrakerConfPresent == Exists(h.fs, x.configDir + ["moonraker.conf"])
              && d.printerCfgPresent == Exists(h.fs, x.configDir + ["printer.cfg"])
              && (x.sandbox <==> d.services.None?)
              && (x.sandbox ==> h.log == old(h.log))
              && (!x.sandbox ==>
                    var moon := if x.moonrakerService.Some? then x.moonrakerService.value else "";
                    var mid := if x.serviceName != "" then old(h.log) + [Systemctl(["is-active", x.serviceName])] else old(h.log);
                    && d.services.value.0 == QueriedState(h.answer, old(h.log), x.serviceName)
                    && d.services.value.1 == QueriedState(h.answer, mid, moon)
                    && h.log == mid + (if moon != "" then [Systemctl(["is-active", moon])] else []))
  {
    var xs := store.Load();
    var target := GetInstance(xs, id);
    if target.None? {
      return DiagNoSuchInstance;
    }
    var x := target.value;
    var services := None;
    if !x.sandbox {
      var ks := ServiceStatus(h, x.serviceName);
      var moon := if x.moonrakerService.Some? then x.moonrakerService.value else "";
      var ms := ServiceStatus(h, moon);
      services := Some((ks, ms));
    }
    d := Report(Exists(h.fs, x.configDir), Exists(h.fs, x.klipperDir), services,
                Exists(h.fs, x.configDir + ["moonraker.conf"]), Exists(h.fs, x.configDir + ["printer.cfg"]));
  }
}
