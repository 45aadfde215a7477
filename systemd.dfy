/**
 * fp_core/systemd.py: rendering the two unit files of an instance, and the systemctl
 * calls that enable, restart, stop and query them.
 */
module Systemd {
  import opened Wrappers
  import opened Host
  import opened Decimal
  import opened Instances

  /** `/etc/systemd/system`. */
  const SystemdDir: Path := ["etc", "systemd", "system"]

  /** `/etc/systemd/system/{name}.service`. */
  function UnitPath(serviceName: string): (p: Path)
    ensures Parent(p) == SystemdDir && |p| == 4 && p[0] == "etc"
  {
    SystemdDir + [serviceName + ".service"]
  }

  /** The moonraker unit is always named after the id (not after `moonraker_service`). */
  function MoonrakerUnitName(id: int): string {
    "moonraker" + IntToString(id)
  }

  function MoonrakerConfPath(configDir: Path): (p: Path)
    ensures Parent(p) == configDir && |p| == |configDir| + 1
  {
    configDir + ["moonraker.conf"]
  }

  /** The unit text of a record: the logs directory is the sibling `logs` of its config directory. */
  function KlipperUnitOf(x: Instance): Text {
    KlipperUnitFile(x.id, x.klipperDir, x.configDir, Parent(x.configDir) + ["logs"])
  }

  /** The effect of `write_klipper_service`: the unit file is (over)written unconditionally. */
  function KlipperService(fs: FileMap, x: Instance): (r: Result<FileMap, Error>)
    ensures r.Ok? ==> r.value == fs[UnitPath(x.serviceName) := File(KlipperUnitOf(x))]
    ensures r.Ok? <==> !IsDir(fs, UnitPath(x.serviceName)) && IsDir(fs, SystemdDir)
    ensures r.Err? ==> !r.error.CommandFailed?
  {
    WriteText(fs, UnitPath(x.serviceName), KlipperUnitOf(x))
  }

  /** `write_klipper_service`. */
  method WriteKlipperService(h: Machine, x: Instance) returns (r: Result<Path, Error>)
    modifies h`fs
    ensures h.fs == After(old(h.fs), KlipperService(old(h.fs), x))
    ensures r.Ok? <==> KlipperService(old(h.fs), x).Ok?
    ensures r.Ok? ==> r.value == UnitPath(x.serviceName)
    ensures r.Err? ==> r.error == KlipperService(old(h.fs), x).error
  {
    var servicePath := UnitPath(x.serviceName);
    var s := h.Apply(WriteText(h.fs, servicePath, KlipperUnitOf(x)));
    if s.Err? {
      return Err(s.error);
    }
    return Ok(servicePath);
  }

  /**
   * The effect of `write_moonraker_service`: moonraker.conf only when absent, then the
   * unit file named after the id.
   */
  function MoonrakerService(fs: FileMap, x: Instance): (e: Effect)
    ensures fs.Keys <= e.fs.Keys
    ensures e.fs.Keys <= fs.Keys + {MoonrakerConfPath(x.configDir), UnitPath(MoonrakerUnitName(x.id))}
    ensures KeepsExcept(fs, e.fs, {UnitPath(MoonrakerUnitName(x.id))})
    ensures e.status.Ok? ==>
              e.fs == (if Exists(fs, MoonrakerConfPath(x.configDir)) then fs
                       else fs[MoonrakerConfPath(x.configDir) := File(MoonrakerConfFile(x.moonrakerPort))])
                      [UnitPath(MoonrakerUnitName(x.id)) := File(MoonrakerUnitFile(x.id, MoonrakerConfPath(x.configDir), x.configDir))]
    ensures e.status.Ok? ==>
              && UnitPath(MoonrakerUnitName(x.id)) in e.fs
              && e.fs[UnitPath(MoonrakerUnitName(x.id))]
                 == File(MoonrakerUnitFile(x.id, MoonrakerConfPath(x.configDir), x.configDir))
              && Exists(e.fs, MoonrakerConfPath(x.configDir))
    ensures MoonrakerConfPath(x.configDir) in fs ==>
              MoonrakerConfPath(x.configDir) in e.fs && e.fs[MoonrakerConfPath(x.configDir)] == fs[MoonrakerConfPath(x.configDir)]
    ensures IsDir(fs, x.configDir) && !Exists(fs, MoonrakerConfPath(x.configDir)) && e.status.Ok? ==>
              e.fs[MoonrakerConfPath(x.configDir)] == File(MoonrakerConfFile(x.moonrakerPort))
    ensures e.status.Err? ==> !e.status.error.CommandFailed?
    ensures e.status.Ok? <==>
              && (Exists(fs, MoonrakerConfPath(x.configDir)) || IsDir(fs, x.configDir))
              && !IsDir(fs, UnitPath(MoonrakerUnitName(x.id))) && IsDir(fs, SystemdDir)
  {
    ConfIsNotUnit(x.configDir, x.id);
    ConfThenUnit(fs, MoonrakerConfPath(x.configDir), MoonrakerConfFile(x.moonrakerPort),
                 UnitPath(MoonrakerUnitName(x.id)), MoonrakerUnitFile(x.id, MoonrakerConfPath(x.configDir), x.configDir))
  }

  /** A configuration file written only when absent, then a unit file written unconditionally. */
  function ConfThenUnit(fs: FileMap, conf: Path, confText: Text, unit: Path, unitText: Text): (e: Effect)
    requires conf != unit
    ensures fs.Keys <= e.fs.Keys && e.fs.Keys <= fs.Keys + {conf, unit}
    ensures KeepsExcept(fs, e.fs, {unit})
    ensures e.status.Ok? ==> e.fs == (if Exists(fs, conf) then fs else fs[conf := File(confText)])[unit := File(unitText)]
    ensures e.status.Ok? ==> unit in e.fs && e.fs[unit] == File(unitText) && Exists(e.fs, conf)
    ensures conf in fs ==> conf in e.fs && e.fs[conf] == fs[conf]
    ensures !Exists(fs, conf) && e.status.Ok? ==> e.fs[conf] == File(confText)
    ensures e.status.Ok? <==> (Exists(fs, conf) || IsDir(fs, Parent(conf))) && !IsDir(fs, unit) && IsDir(fs, Parent(unit))
    ensures e.status.Err? ==> !e.status.error.CommandFailed?
  {
    match WriteIfAbsent(fs, conf, confText)
    case Err(e) => Effect(fs, Err(e))
    case Ok(f1) => Step(f1, WriteText(f1, unit, unitText))
  }

  /** moonraker.conf is never the moonraker unit file: their names end differently. */
  lemma ConfIsNotUnit(configDir: Path, id: int)
    ensures MoonrakerConfPath(configDir) != UnitPath(MoonrakerUnitName(id))
  {
    var a := MoonrakerConfPath(configDir)[|configDir|];
    var b := MoonrakerUnitName(id) + ".service";
    assert a[|a| - 1] == 'f';
    assert b[|b| - 1] == 'e';
  }

  /** `write_moonraker_service`. */
  method WriteMoonrakerService(h: Machine, x: Instance) returns (r: Result<Path, Error>)
    modifies h`fs
    ensures h.fs == MoonrakerService(old(h.fs), x).fs
    ensures r.Ok? <==> MoonrakerService(old(h.fs), x).status.Ok?
    ensures r.Ok? ==> r.value == UnitPath(MoonrakerUnitName(x.id))
    ensures r.Err? ==> r.error == MoonrakerService(old(h.fs), x).status.error
  {
    var servicePath := UnitPath(MoonrakerUnitName(x.id));
    var moonCfg := MoonrakerConfPath(x.configDir);
    if !Exists(h.fs, moonCfg) {
      var s := h.Apply(WriteText(h.fs, moonCfg, MoonrakerConfFile(x.moonrakerPort)));
      if s.Err? {
        return Err(s.error);
      }
    }
    var s := h.Apply(WriteText(h.fs, servicePath, MoonrakerUnitFile(x.id, moonCfg, x.configDir)));
    if s.Err? {
      return Err(s.error);
    }
    return Ok(servicePath);
  }

  function SystemctlArgv(args: seq<string>): seq<string> {
    ["systemctl"] + args
  }

  /** `sudo systemctl <args>`. */
  function Systemctl(args: seq<string>): Cmd {
    Invocation(SystemctlArgv(args), true)
  }

  /** The commands of `reload_and_enable`, in order. */
  function ReloadEnableCmds(name: string): seq<Cmd> {
    [Systemctl(["daemon-reload"]), Systemctl(["enable", name]), Systemctl(["start", name])]
  }

  /** The commands issued by a run of check=True commands, and how it ended. */
  datatype Run = Run(issued: seq<Cmd>, outcome: Result<(), Error>)

  /**
   * Issuing `cmds` one after another with check=True: the first non-zero exit raises and
   * nothing after it is issued.
   */
  function RunChecked(answer: (seq<Cmd>, Cmd) -> int, log: seq<Cmd>, cmds: seq<Cmd>): (r: Run)
    ensures |r.issued| <= |cmds| && r.issued == cmds[..|r.issued|]
    ensures r.outcome.Ok? ==> r.issued == cmds
    ensures r.outcome.Err? ==> |r.issued| >= 1 && r.outcome.error.CommandFailed?
                               && r.outcome.error.cmd == r.issued[|r.issued| - 1]
                               && r.outcome.error.code != 0
    decreases |cmds|
  {
    if cmds == [] then Run([], Ok(()))
    else
      var code := answer(log, cmds[0]);
      if code != 0 then Run([cmds[0]], Err(CommandFailed(cmds[0], code)))
      else
        var rest := RunChecked(answer, log + [cmds[0]], cmds[1..]);
        assert cmds == [cmds[0]] + cmds[1..];
        Run([cmds[0]] + rest.issued, rest.outcome)
  }

  /**
   * A checked run leaves the log extended by a prefix of its commands; a failure is the last
   * command issued, and its code is the environment's answer given everything before it.
   */
  lemma RunCheckedLog(answer: Answer, log: seq<Cmd>, cmds: seq<Cmd>)
    ensures var r := RunChecked(answer, log, cmds);
            && IssuedPrefix(log, cmds, log + r.issued)
            && (r.outcome.Err? ==> FailedLastCommand(answer, log, log + r.issued, r.outcome.error))
  {
    var r := RunChecked(answer, log, cmds);
    assert (log + cmds)[..|log| + |r.issued|] == log + cmds[..|r.issued|];
    RunCheckedFails(answer, log, cmds);
  }

  lemma {:induction false} RunCheckedFails(answer: Answer, log: seq<Cmd>, cmds: seq<Cmd>)
    ensures var r := RunChecked(answer, log, cmds);
            r.outcome.Err? ==> FailedLastCommand(answer, log, log + r.issued, r.outcome.error)
    decreases |cmds|
  {
    if cmds != [] {
      var c := cmds[0];
      if answer(log, c) != 0 {
        assert (log + [c])[..|log|] == log;
      } else {
        var rest := RunChecked(answer, log + [c], cmds[1..]);
        RunCheckedFails(answer, log + [c], cmds[1..]);
        assert log + ([c] + rest.issued) == (log + [c]) + rest.issued;
      }
    }
  }

  /** Every command of `cmds` exits 0 given the log before it, starting from `log`. */
  predicate AllZero(answer: (seq<Cmd>, Cmd) -> int, log: seq<Cmd>, cmds: seq<Cmd>) {
    forall i :: 0 <= i < |cmds| ==> answer(log + cmds[..i], cmds[i]) == 0
  }

  /** `AllZero` of a non-empty list: the first command, then the rest after it. */
  lemma AllZeroCons(answer: (seq<Cmd>, Cmd) -> int, log: seq<Cmd>, cmds: seq<Cmd>)
    requires cmds != []
    ensures AllZero(answer, log, cmds) <==>
              answer(log, cmds[0]) == 0 && AllZero(answer, log + [cmds[0]], cmds[1..])
  {
    var tail := cmds[1..];
    assert log + cmds[..0] == log;
    forall i | 1 <= i < |cmds|
      ensures log + cmds[..i] == (log + [cmds[0]]) + tail[..i - 1] && cmds[i] == tail[i - 1]
    {
      assert cmds[..i] == [cmds[0]] + tail[..i - 1];
    }
    if answer(log, cmds[0]) == 0 && AllZero(answer, log + [cmds[0]], tail) {
      forall i | 0 <= i < |cmds| ensures answer(log + cmds[..i], cmds[i]) == 0 {
        if i > 0 {
          assert answer((log + [cmds[0]]) + tail[..i - 1], tail[i - 1]) == 0;
        }
      }
    }
    if AllZero(answer, log, cmds) {
      forall i | 0 <= i < |tail| ensures answer((log + [cmds[0]]) + tail[..i], tail[i]) == 0 {
        assert answer(log + cmds[..i + 1], cmds[i + 1]) == 0;
      }
    }
  }

  /** `AllZero` of two lists run back to back: the first, then the second after all of the first. */
  lemma AllZeroAppend(answer: Answer, log: seq<Cmd>, a: seq<Cmd>, b: seq<Cmd>)
    ensures AllZero(answer, log, a + b) <==> AllZero(answer, log, a) && AllZero(answer, log + a, b)
  {
    var ab := a + b;
    forall i | 0 <= i < |a| ensures ab[..i] == a[..i] && ab[i] == a[i] {
    }
    forall j | 0 <= j < |b| ensures log + ab[..|a| + j] == (log + a) + b[..j] && ab[|a| + j] == b[j] {
      assert ab[..|a| + j] == a + b[..j];
    }
    if AllZero(answer, log, a) && AllZero(answer, log + a, b) {
      forall i | 0 <= i < |ab| ensures answer(log + ab[..i], ab[i]) == 0 {
        if i >= |a| {
          assert answer((log + a) + b[..i - |a|], b[i - |a|]) == 0;
        }
      }
    }
    if AllZero(answer, log, ab) {
      forall j | 0 <= j < |b| ensures answer((log + a) + b[..j], b[j]) == 0 {
        assert answer(log + ab[..|a| + j], ab[|a| + j]) == 0;
      }
    }
  }

  /**
   * A run succeeds exactly when every command exits 0 given the commands before it; when it
   * fails, every command before the failing one exited 0.
   */
  lemma {:induction false} RunCheckedCodes(answer: (seq<Cmd>, Cmd) -> int, log: seq<Cmd>, cmds: seq<Cmd>)
    ensures RunChecked(answer, log, cmds).outcome.Ok? <==> AllZero(answer, log, cmds)
    ensures var r := RunChecked(answer, log, cmds);
            r.outcome.Err? ==> AllZero(answer, log, cmds[..|r.issued| - 1])
    decreases |cmds|
  {
    if cmds != [] {
      AllZeroCons(answer, log, cmds);
      var r := RunChecked(answer, log, cmds);
      if answer(log, cmds[0]) != 0 {
        assert cmds[..|r.issued| - 1] == [];
      } else {
        var tail := cmds[1..];
        var rest := RunChecked(answer, log + [cmds[0]], tail);
        RunCheckedCodes(answer, log + [cmds[0]], tail);
        if r.outcome.Err? {
          var k := |r.issued| - 1;
          assert k == |rest.issued| && k >= 1;
          var pre := cmds[..k];
          assert pre[1..] == tail[..k - 1] by {
            assert forall j :: 0 <= j < k - 1 ==> pre[1..][j] == cmds[j + 1] == tail[j];
          }
          AllZeroCons(answer, log, pre);
        }
      }
    }
  }

  /** One step of a checked run: the first command, then the rest only if it exited 0. */
  lemma RunCheckedFirst(answer: (seq<Cmd>, Cmd) -> int, log: seq<Cmd>, c: Cmd, rest: seq<Cmd>)
    ensures var code := answer(log, c);
            RunChecked(answer, log, [c] + rest)
            == if code != 0 then Run([c], Err(CommandFailed(c, code)))
               else Run([c] + RunChecked(answer, log + [c], rest).issued, RunChecked(answer, log + [c], rest).outcome)
  {
    assert ([c] + rest)[1..] == rest;
  }

  /**
   * A filesystem step followed, only when it succeeded, by a checked run of `cmds`: the
   * shape of "write the unit file, then reload and enable it".
   */
  function EffectThenRun(answer: Answer, log: seq<Cmd>, e: Effect, cmds: seq<Cmd>): (o: Outcome<()>)
    ensures o.fs == e.fs
    ensures IssuedPrefix(log, cmds, o.log)
    ensures o.result.Ok? <==> e.status.Ok? && AllZero(answer, log, cmds)
    ensures o.result.Ok? ==> o.log == log + cmds
    ensures e.status.Err? ==> o.log == log && o.result == e.status
    ensures e.status.Ok? && o.result.Err? ==> FailedLastCommand(answer, log, o.log, o.result.error)
  {
    assert (log + cmds)[..|log|] == log;
    if e.status.Err? then Outcome(e.fs, log, e.status)
    else
      var run := RunChecked(answer, log, cmds);
      RunCheckedLog(answer, log, cmds);
      RunCheckedCodes(answer, log, cmds);
      Outcome(e.fs, log + run.issued, run.outcome)
  }

  /** `reload_and_enable`: daemon-reload, enable, start; a failure stops the later steps. */
  method ReloadAndEnable(h: Machine, name: string) returns (r: Result<(), Error>)
    modifies h`log
    ensures h.log == old(h.log) + RunChecked(h.answer, old(h.log), ReloadEnableCmds(name)).issued
    ensures r == RunChecked(h.answer, old(h.log), ReloadEnableCmds(name)).outcome
  {
    ghost var log0 := h.log;
    ghost var cmds := ReloadEnableCmds(name);
    var c := h.RunCmd(SystemctlArgv(["daemon-reload"]), true, true);
    if c.Err? {
      return Err(c.error);
    }
    ghost var log1 := h.log;
    ghost var rest1 := RunChecked(h.answer, log1, cmds[1..]);
    assert RunChecked(h.answer, log0, cmds) == Run([cmds[0]] + rest1.issued, rest1.outcome);
    c := h.RunCmd(SystemctlArgv(["enable", name]), true, true);
    if c.Err? {
      return Err(c.error);
    }
    ghost var log2 := h.log;
    ghost var rest2 := RunChecked(h.answer, log2, cmds[2..]);
    assert cmds[1..][1..] == cmds[2..];
    assert rest1 == Run([cmds[1]] + rest2.issued, rest2.outcome);
    c := h.RunCmd(SystemctlArgv(["start", name]), true, true);
    if c.Err? {
      return Err(c.error);
    }
    assert cmds[2..] == [Systemctl(["start", name])];
    assert h.answer(log2, Systemctl(["start", name])) == 0;
    assert cmds[2..][1..] == [];
    assert RunChecked(h.answer, h.log, []) == Run([], Ok(()));
    assert [cmds[2]] + [] == [cmds[2]];
    assert rest2 == Run([cmds[2]], Ok(()));
    return Ok(());
  }

  /** `restart_service`: one restart, whose failure raises. */
  method RestartService(h: Machine, name: string) returns (r: Result<(), Error>)
    modifies h`log
    ensures h.log == old(h.log) + [Systemctl(["restart", name])]
    ensures r == Completed(Finish(Systemctl(["restart", name]), h.answer(old(h.log), Systemctl(["restart", name])), true))
  {
    var c := h.RunCmd(SystemctlArgv(["restart", name]), true, true);
    r := Completed(c);
  }

  function Completed(r: Result<int, Error>): Result<(), Error> {
    if r.Ok? then Ok(()) else Err(r.error)
  }

  /** The supervisor commands `stop_and_disable(name)` issues when it runs to the end. */
  function StopCmds(name: string): seq<Cmd> {
    [Systemctl(["stop", name]), Systemctl(["disable", name]), Systemctl(["daemon-reload"])]
  }

  /**
   * The outcome of `stop_and_disable(name)`: stop and disable are issued without check, so
   * their exit codes are ignored; the unit file is removed (a missing one is fine); then
   * daemon-reload, whose failure raises.
   */
  function StopRun(answer: Answer, fs: FileMap, log: seq<Cmd>, name: string): (o: Outcome<()>)
    ensures RemovesOnlyFiles(fs, o.fs) && KeepsExcept(fs, o.fs, {UnitPath(name)})
    ensures IssuedPrefix(log, StopCmds(name), o.log) && |o.log| >= |log| + 2
    ensures o.result.Ok? <==>
              && !IsDir(fs, UnitPath(name)) && !ThroughFile(fs, UnitPath(name))
              && answer(log + StopCmds(name)[..2], Systemctl(["daemon-reload"])) == 0
    ensures o.result.Ok? ==> o.fs == fs - {UnitPath(name)} && o.log == log + StopCmds(name)
    ensures o.result.Err? ==> FailedLastCommand(answer, log, o.log, o.result.error)
    ensures o.result.Err? && !o.result.error.CommandFailed? ==>
              && o.fs == fs && o.log == log + StopCmds(name)[..2]
              && o.result.error == (if IsDir(fs, UnitPath(name)) then IsADirectory(UnitPath(name)) else NotADirectory(UnitPath(name)))
  {
    var unit := UnitPath(name);
    var cmds := StopCmds(name);
    var issued := log + cmds[..2];
    assert (log + cmds)[..|log| + 2] == issued;
    match Unlink(fs, unit)
    case Err(e) => Outcome(fs, issued, Err(e))
    case Ok(f) =>
      assert issued + [cmds[2]] == log + cmds;
      Outcome(f, log + cmds, Completed(Finish(cmds[2], answer(issued, cmds[2]), true)))
  }

  /** `stop_and_disable`. */
  method StopAndDisable(h: Machine, name: string) returns (r: Result<(), Error>)
    modifies h
    ensures Outcome(h.fs, h.log, r) == StopRun(h.answer, old(h.fs), old(h.log), name)
  {
    ghost var log0 := h.log;
    var c := h.RunCmd(SystemctlArgv(["stop", name]), true, false);
    c := h.RunCmd(SystemctlArgv(["disable", name]), true, false);
    assert h.log == log0 + StopCmds(name)[..2];
    var s := h.Apply(Unlink(h.fs, UnitPath(name)));
    if s.Err? {
      return s;
    }
    c := h.RunCmd(SystemctlArgv(["daemon-reload"]), true, true);
    r := Completed(c);
  }

  /** What `systemctl is-active` reports. */
  datatype ServiceState = Active | Inactive | Unknown {
    function Text(): string {
      match this
      case Active => "active"
      case Inactive => "inactive"
      case Unknown => "unknown"
    }
  }

  /** Exit code 0 is active, 3 is inactive, anything else unknown. */
  function StateOfCode(code: int): (s: ServiceState)
    ensures s == Active <==> code == 0
    ensures s == Inactive <==> code == 3
    ensures s == Unknown <==> code != 0 && code != 3
  {
    if code == 0 then Active else if code == 3 then Inactive else Unknown
  }

  /** The state `service_status(name)` reports after the commands in `log`. */
  function QueriedState(answer: (seq<Cmd>, Cmd) -> int, log: seq<Cmd>, name: string): ServiceState {
    if name == "" then Unknown else StateOfCode(answer(log, Systemctl(["is-active", name])))
  }

  /** `service_status`: an empty name is unknown without any command; otherwise one is-active query. */
  method ServiceStatus(h: Machine, name: string) returns (s: ServiceState)
    modifies h`log
    ensures name == "" ==> s == Unknown && h.log == old(h.log)
    ensures name != "" ==> h.log == old(h.log) + [Systemctl(["is-active", name])]
    ensures s == QueriedState(h.answer, old(h.log), name)
  {
    if name == "" {
      return Unknown;
    }
    var c := h.RunCmd(SystemctlArgv(["is-active", name]), true, false);
    s := StateOfCode(c.value);
  }
}
