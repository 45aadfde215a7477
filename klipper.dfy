/**
 * fp_core/klipper.py: the per-instance filesystem provisioning. Every operation only adds
 * entries, and each configuration writer leaves an existing file untouched.
 */
module Klipper {
  import opened Wrappers
  import opened Host
  import opened Decimal

  /** Base paths of fp_core/config.py. */
  const Home: Path := ["home", "syko"]
  const InstanceDataBase: Path := Home + ["printer_data_instances"]
  const KlipperTemplate: Path := Home + ["klipper"]


  /** `<base>/instance_{id}`. */
  function InstanceRoot(id: int): Path {
    InstanceDataBase + ["instance_" + IntToString(id)]
  }

  /** `HOME/klipper_{id}`, where the Klipper code of an instance is cloned. */
  function KlipperClonePath(id: int): Path {
    Home + ["klipper_" + IntToString(id)]
  }

  function GitCloneCmd(target: Path): Cmd {
    Invocation(["git", "clone", PathString(KlipperTemplate), PathString(target)], false)
  }

  /** The three `mkdir(parents=True, exist_ok=True)` calls of `create_instance_dirs`, in order. */
  function InstanceDirs(fs: FileMap, id: int): (e: Effect)
    ensures Extends(fs, e.fs)
    ensures e.status.Err? ==> e.status.error.FileExists? || e.status.error.NotADirectory?
    ensures e.status.Ok? <==>
              && NoFileOn(fs, InstanceRoot(id) + ["config"])
              && NoFileOn(fs, InstanceRoot(id) + ["logs"])
              && NoFileOn(fs, InstanceRoot(id) + ["comms"])
    ensures e.status.Ok? ==>
              && IsDir(e.fs, InstanceRoot(id) + ["config"])
              && IsDir(e.fs, InstanceRoot(id) + ["logs"])
              && IsDir(e.fs, InstanceRoot(id) + ["comms"])
    ensures forall q :: q in e.fs && q !in fs ==>
              && e.fs[q] == Dir && q != []
              && (IsPrefix(q, InstanceRoot(id) + ["config"]) || IsPrefix(q, InstanceRoot(id) + ["logs"])
                  || IsPrefix(q, InstanceRoot(id) + ["comms"]))
  {
    var root := InstanceRoot(id);
    match MakeDirs(fs, root + ["config"])
    case Err(e) => Effect(fs, Err(e))
    case Ok(f1) =>
      NoFileOnGrow(fs, f1, root + ["logs"]);
      match MakeDirs(f1, root + ["logs"])
      case Err(e) => Effect(f1, Err(e))
      case Ok(f2) =>
        NoFileOnGrow(f1, f2, root + ["comms"]);
        NoFileOnGrow(fs, f1, root + ["comms"]);
        Step(f2, MakeDirs(f2, root + ["comms"]))
  }

  /** Adding only directories does not put a file on any path. */
  lemma NoFileOnGrow(a: FileMap, b: FileMap, p: Path)
    requires Extends(a, b) && forall q :: q in b && q !in a ==> b[q] == Dir
    ensures NoFileOn(b, p) <==> NoFileOn(a, p)
  {
  }

  /** Creating the directories of an instance a second time changes nothing. */
  lemma InstanceDirsIdempotent(fs: FileMap, id: int)
    requires InstanceDirs(fs, id).status.Ok?
    ensures InstanceDirs(InstanceDirs(fs, id).fs, id) == InstanceDirs(fs, id)
  {
    var root := InstanceRoot(id);
    var f1 := MakeDirs(fs, root + ["config"]).value;
    var f2 := MakeDirs(f1, root + ["logs"]).value;
    var f := MakeDirs(f2, root + ["comms"]).value;
    assert f == InstanceDirs(fs, id).fs;
    DirsKept(f1, f, root + ["config"]);
    DirsKept(f2, f, root + ["logs"]);
    MakeDirsNoop(f, root + ["config"]);
    MakeDirsNoop(f, root + ["logs"]);
    MakeDirsNoop(f, root + ["comms"]);
  }

  /** Directories on a path stay directories when entries are only added. */
  lemma DirsKept(a: FileMap, b: FileMap, p: Path)
    requires Extends(a, b) && forall q :: IsPrefix(q, p) ==> IsDir(a, q)
    ensures forall q :: IsPrefix(q, p) ==> IsDir(b, q)
  {
  }

  /** `create_instance_dirs`: ensures `config`, `logs` and `comms` exist and returns the root. */
  method CreateInstanceDirs(h: Machine, id: int) returns (r: Result<Path, Error>)
    modifies h`fs
    ensures h.fs == InstanceDirs(old(h.fs), id).fs
    ensures r.Ok? <==> InstanceDirs(old(h.fs), id).status.Ok?
    ensures r.Ok? ==> r.value == InstanceRoot(id)
    ensures r.Err? ==> r.error == InstanceDirs(old(h.fs), id).status.error
  {
    var root := InstanceRoot(id);
    var s := h.Apply(MakeDirs(h.fs, root + ["config"]));
    if s.Err? { return Err(s.error); }
    s := h.Apply(MakeDirs(h.fs, root + ["logs"]));
    if s.Err? { return Err(s.error); }
    s := h.Apply(MakeDirs(h.fs, root + ["comms"]));
    if s.Err? { return Err(s.error); }
    return Ok(root);
  }

  /** The commands `clone_klipper` issues: none for an existing target, else one clone. */
  function CloneCmds(fs: FileMap, id: int): seq<Cmd> {
    if Exists(fs, KlipperClonePath(id)) then [] else [GitCloneCmd(KlipperClonePath(id))]
  }

  /**
   * The outcome of `clone_klipper`: an existing target is returned as it is, with no command
   * issued; otherwise exactly one `git clone <template> <target>` is issued, and a non-zero
   * exit raises with nothing changed.
   */
  function Clone(answer: Answer, fs: FileMap, log: seq<Cmd>, id: int): (o: Outcome<Path>)
    ensures o.log == log + CloneCmds(fs, id)
    ensures Extends(fs, o.fs) && o.fs.Keys <= fs.Keys + {KlipperClonePath(id)}
    ensures Exists(fs, KlipperClonePath(id)) ==> o == Outcome(fs, log, Ok(KlipperClonePath(id)))
    ensures o.result.Ok? <==> Exists(fs, KlipperClonePath(id)) || answer(log, GitCloneCmd(KlipperClonePath(id))) == 0
    ensures o.result.Ok? ==> o.result.value == KlipperClonePath(id) && Exists(o.fs, KlipperClonePath(id))
    ensures !Exists(fs, KlipperClonePath(id)) && o.result.Ok? ==> o.fs == fs[KlipperClonePath(id) := Dir]
    ensures o.result.Err? ==>
              && o.fs == fs && o.result.error.CommandFailed?
              && FailedLastCommand(answer, log, o.log, o.result.error)
  {
    var target := KlipperClonePath(id);
    if Exists(fs, target) then Outcome(fs, log, Ok(target))
    else
      var code := answer(log, GitCloneCmd(target));
      assert (log + [GitCloneCmd(target)])[..|log|] == log;
      if code != 0 then Outcome(fs, log + [GitCloneCmd(target)], Err(CommandFailed(GitCloneCmd(target), code)))
      else Outcome(fs[target := Dir], log + [GitCloneCmd(target)], Ok(target))
  }

  /** `clone_klipper`. */
  method CloneKlipper(h: Machine, id: int) returns (r: Result<Path, Error>)
    modifies h
    ensures Outcome(h.fs, h.log, r) == Clone(h.answer, old(h.fs), old(h.log), id)
  {
    var target := KlipperClonePath(id);
    if Exists(h.fs, target) {
      return Ok(target);
    }
    var run := h.RunCmd(["git", "clone", PathString(KlipperTemplate), PathString(target)], false, true);
    if run.Err? {
      return Err(run.error);
    }
    h.fs := h.fs[target := Dir];
    return Ok(target);
  }

  /** The effect of `write_base_printer_cfg(config_dir)`. */
  function BasePrinterCfg(fs: FileMap, configDir: Path): (r: Result<FileMap, Error>)
    ensures Exists(fs, configDir + ["printer.cfg"]) ==> r == Ok(fs)
    ensures IsDir(fs, configDir) && !Exists(fs, configDir + ["printer.cfg"]) ==>
              r == Ok(fs[configDir + ["printer.cfg"] := File(BasePrinterCfgFile)])
  {
    WriteIfAbsent(fs, configDir + ["printer.cfg"], BasePrinterCfgFile)
  }

  /** Writing the base printer.cfg twice has the effect of writing it once. */
  lemma BasePrinterCfgIdempotent(fs: FileMap, configDir: Path)
    requires BasePrinterCfg(fs, configDir).Ok?
    ensures BasePrinterCfg(BasePrinterCfg(fs, configDir).value, configDir) == BasePrinterCfg(fs, configDir)
  {
    WriteIfAbsentIdempotent(fs, configDir + ["printer.cfg"], BasePrinterCfgFile, BasePrinterCfgFile);
  }

  /** `write_base_printer_cfg`: writes the base text only when printer.cfg is absent. */
  method WriteBasePrinterCfg(h: Machine, configDir: Path) returns (r: Result<(), Error>)
    modifies h`fs
    ensures h.fs == After(old(h.fs), BasePrinterCfg(old(h.fs), configDir))
    ensures r == Status(BasePrinterCfg(old(h.fs), configDir))
  {
    var cfg := configDir + ["printer.cfg"];
    if Exists(h.fs, cfg) {
      return Ok(());
    }
    r := h.Apply(WriteText(h.fs, cfg, BasePrinterCfgFile));
  }

  function MmuDir(configDir: Path): Path {
    configDir + ["mmu"]
  }

  function MmuSteppersPath(configDir: Path): (p: Path)
    ensures Parent(p) == MmuDir(configDir)
  {
    MmuDir(configDir) + ["mmu_steppers.cfg"]
  }

  /** The effect of `write_mmu_steppers_cfg(config_dir)`: `mkdir` of `mmu`, then the file when absent. */
  function MmuSteppersCfg(fs: FileMap, configDir: Path): (e: Effect)
    ensures Extends(fs, e.fs)
    ensures e.status.Ok? ==> IsDir(e.fs, MmuDir(configDir)) && Exists(e.fs, MmuSteppersPath(configDir))
    ensures IsDir(fs, MmuDir(configDir)) && Exists(fs, MmuSteppersPath(configDir)) ==> e == Effect(fs, Ok(()))
    ensures IsDir(fs, configDir) && !Exists(fs, MmuDir(configDir)) && !Exists(fs, MmuSteppersPath(configDir)) ==>
              e == Effect(fs[MmuDir(configDir) := Dir][MmuSteppersPath(configDir) := File(MmuSteppersCfgFile)], Ok(()))
    ensures IsDir(fs, MmuDir(configDir)) && !Exists(fs, MmuSteppersPath(configDir)) ==>
              e == Effect(fs[MmuSteppersPath(configDir) := File(MmuSteppersCfgFile)], Ok(()))
  {
    match MakeDir(fs, MmuDir(configDir))
    case Err(e) => Effect(fs, Err(e))
    case Ok(f1) => Step(f1, WriteIfAbsent(f1, MmuSteppersPath(configDir), MmuSteppersCfgFile))
  }

  /** Running `write_mmu_steppers_cfg` again after it succeeded changes nothing. */
  lemma MmuSteppersCfgIdempotent(fs: FileMap, configDir: Path)
    requires MmuSteppersCfg(fs, configDir).status.Ok?
    ensures MmuSteppersCfg(MmuSteppersCfg(fs, configDir).fs, configDir) == MmuSteppersCfg(fs, configDir)
  {
    var f := MmuSteppersCfg(fs, configDir).fs;
    assert MakeDir(f, MmuDir(configDir)) == Ok(f);
    assert WriteIfAbsent(f, MmuSteppersPath(configDir), MmuSteppersCfgFile) == Ok(f);
  }

  /** `write_mmu_steppers_cfg`: an existing mmu_steppers.cfg is never overwritten. */
  method WriteMmuSteppersCfg(h: Machine, configDir: Path) returns (r: Result<(), Error>)
    modifies h`fs
    ensures h.fs == MmuSteppersCfg(old(h.fs), configDir).fs
    ensures r == MmuSteppersCfg(old(h.fs), configDir).status
  {
    var s := h.Apply(MakeDir(h.fs, MmuDir(configDir)));
    if s.Err? {
      return s;
    }
    var steppers := MmuSteppersPath(configDir);
    if Exists(h.fs, steppers) {
      return Ok(());
    }
    r := h.Apply(WriteText(h.fs, steppers, MmuSteppersCfgFile));
  }
}
