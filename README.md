# FluxPath multi-instance manager, in Dafny

This project models the part of FluxPath that manages several Klipper/Moonraker printer
instances on one host, plus three small in-memory components that sit beside it:

- **Registry** (`fp_core/instances.py`). It holds the instance records, allocates ids as
  "max + 1" and probes ports in steps of 10, separately for the klipper and moonraker
  families. The registry file is an abstract store (`Instances.Store`).
- **Provisioning** (`fp_core/klipper.py`). It creates the instance directories, clones
  Klipper, and writes `printer.cfg` and `mmu/mmu_steppers.cfg` only when they are absent.
- **Supervisor glue** (`fp_core/systemd.py`). It renders and writes the unit files and
  issues the `systemctl` sequences through `sudo`. A command run with check=True raises
  on a non-zero exit.
- **Command line** (`fluxpath.py`). It provides create, list, install, restart, delete and
  diag. Each command loads the registry, performs its side effects, and saves last when it
  saves at all.
- **Simulated MMU controller** (`backend/mmu/controller.py`, with the records of
  `backend/mmu/model.py`), the **filament table and tool-change planner**
  (`fluxpath/core/mmu.py`), and the **in-memory instance table** (`core/instances.py`).

## How the host is modelled

The host is a `Host.Machine` object with two fields:

- `fs`: a map from absolute paths to directory or file nodes.
- `log`: every command issued, in order, with `sudo` prefixed where the code asks for it.

A third field, `answer`, is fixed when the machine is created. It decides each command's exit
code from the command and the log before it. That is all the model assumes about git,
systemctl and the installer script.

The `pathlib` and `shutil` operations are pure functions on the map, each returning a
`Result`:

- `mkdir(parents=True, exist_ok=True)`
- `mkdir(exist_ok=True)`
- `write_text`
- `unlink(missing_ok=True)`
- `rmtree(ignore_errors=True)`

Their `Err` cases are the exceptions Python raises for a path whose components are
resolved in order: FileExistsError, IsADirectoryError, NotADirectoryError (a file on the way)
and FileNotFoundError (a missing directory on the way).

Every operation that changes the host, from a single `fp_core` call up to a whole command
of `fluxpath.py`, is a pure function that returns the outcome of the call: the new `fs`, the
new `log` and the result (`Host.Outcome`). The method that performs the call on a `Machine`
is proved equal to that function, which fixes the new `fs`, the new `log` and the result
exactly, on success and on failure alike. Restart, install and diag only issue commands, and
their methods give the new `log` and the result directly. The properties are lemmas about
the functions:

- when the call succeeds, as an if-and-only-if over the old filesystem and the command
  answers;
- which entries are kept, added, rewritten or removed, whatever the outcome;
- which commands are issued. These are always a prefix of the success sequence. A failing
  command is the last one issued and its exit code is non-zero (`Host.FailedLastCommand`).
  A failure with no failing command is the error of a named filesystem step.

Files the manager writes are recorded by template and filled values (`Host.Text`, for
example `KlipperUnitFile(id, klipperDir, configDir, logsDir)`), not as characters.
`Templates.Render` gives the characters of each template. Any other file holds
`OtherText`.

Python's `str(int)` is `Decimal.IntToString`. The lemmas show that it can be parsed back and
that it is injective, which is why records with different ids never share a name, a
directory or a unit name.

## Where the code's behaviour may surprise

Each of these follows from the code as written, and the model keeps it:

- **Ids can be reused.** Ids are "max + 1", not "never used before". After the newest record
  is deleted, the next create hands out its id again (`Orchestrator.CreateDeleteCreate`,
  `Instances.NextIdReusesDeletedNewest`).
- **Delete can stop before saving.** `stop_and_disable` ends with a checked
  `daemon-reload`, and `unlink` of a directory raises. Either failure aborts a delete before
  the instance's directories are removed and before the registry is saved. Unit files
  already unlinked stay removed. `Orchestrator.DeleteSucceeds` states exactly when a delete
  goes through.
- **Ports may coincide across families.** Ports are distinct only within a family. A klipper
  port may equal another record's moonraker port.

## Model

| member | source | states |
|---|---|---|
| Host.MakeDirs | fp_core/klipper.py:9-11 | On success the path and all its prefixes are directories. Every existing entry is kept, and only directories that are prefixes of the path are added. It succeeds exactly when no file lies on the path. Otherwise it raises FileExistsError when the path itself is the only file on it, and NotADirectoryError when a file is a proper prefix. |
| Host.MakeDir | fp_core/klipper.py:37 | `mkdir(exist_ok=True)` succeeds exactly when the path is already a directory, or is absent with a directory parent. It adds at most that one path. A file at the path under a directory raises FileExistsError. Otherwise the parent decides: NotADirectoryError for a file on the way, FileNotFoundError for a missing directory. |
| Host.WriteText | fp_core/klipper.py:29-32 | `write_text` succeeds exactly when the target is not a directory and its parent is. It then sets that one entry to the text. A directory target raises IsADirectoryError. Otherwise the parent decides, as for `mkdir`. |
| Host.WriteIfAbsent | fp_core/klipper.py:26-28 | An existing entry is returned untouched. Otherwise the write is a plain `write_text`. |
| Host.Unlink | fp_core/systemd.py:93 | `unlink(missing_ok=True)` succeeds exactly when the path is neither a directory nor below a file. The result is then the old map without that path, and every other entry is unchanged. A directory raises IsADirectoryError, and a file on the way raises NotADirectoryError. |
| Host.RemoveTree | _backup_full_rebuild_20260119_025858/_backup_full_rebuild_20260119_025715/_backup_repo_restructure_20260119_025438/fluxpath.py:156 | `rmtree(ignore_errors=True)` removes exactly the entries under a directory, and nothing when the path is not a directory. Remaining entries are unchanged. |
| Host.Finish | fp_core/utils.py:47-50 | With check=True a non-zero exit raises. Otherwise the exit code is returned. |
| Host.Invocation | fp_core/utils.py:48 | `sudo` is prepended exactly when asked, and the arguments follow unchanged. |
| Host.MakeDirsIdempotent | fp_core/klipper.py:9-11 | Creating the same directory chain twice equals creating it once. |
| Host.WriteIfAbsentIdempotent | fp_core/klipper.py:26-28 | A second write-if-absent of the same path changes nothing, whatever its text. |
| Host.Machine.Exec | fp_core/utils.py:47-50 | Issuing a command appends exactly it to the log, and the outcome is its exit code under the check flag. |
| Host.Machine.RunCmd | fp_core/utils.py:47-50 | `run_cmd` issues the optionally sudo-prefixed argv once. |
| Instances.Store.Load | fp_core/instances.py:22-26 | A missing registry loads as the empty list. Otherwise the saved list is returned. |
| Instances.Store.Save | fp_core/instances.py:29-33 | After saving, loading returns exactly the saved list. |
| Instances.MaxId | fp_core/instances.py:39 | The result is at least every id and is attained by some record. |
| Instances.NextId | fp_core/instances.py:36-39 | The empty registry gives 1. Otherwise the result is one more than the largest id, so it exceeds every id in use. |
| Instances.FreeStep | fp_core/instances.py:54-57 | The probe stops at the first step whose candidate port is free, and all steps before it are used. It terminates because the used set is finite. |
| Instances.AllocatePorts | fp_core/instances.py:42-59 | Each returned port is base + 10·j and is free in its own family, with every smaller candidate already used. Each equals the first free port of its family, computed from that family's ports alone, so the two families are probed independently. |
| Instances.FirstFreePortUnique | fp_core/instances.py:50-57 | A candidate that is free, with all earlier candidates used, is the allocated port. |
| Instances.AllocateOnEmptyRegistry | fp_core/instances.py:47-57 | An empty registry gets ports 7125 and 7126. |
| Instances.AllocateAfterOneKlipperPort | fp_core/instances.py:47-57 | One record on klipper port 7125 gives (7135, 7126). The moonraker family is not affected. |
| Instances.AppendAllocatedKeepsDistinct | fp_core/instances.py:36-59 | Appending a record with the next id and freshly allocated ports keeps the ids, and the ports within each family, pairwise distinct. |
| Instances.NextIdReusesDeletedNewest | fp_core/instances.py:36-39 | Removing the newest record lowers the next id to at most that record's id. |
| Klipper.InstanceDirs | fp_core/klipper.py:7-13 | Existing entries are kept, and only directories on the `config`, `logs` and `comms` paths under `instance_{id}` are added, whatever the outcome. It succeeds exactly when no file lies on any of the three paths, and then all three are directories. A failure is FileExistsError or NotADirectoryError. |
| Klipper.InstanceDirsIdempotent | fp_core/klipper.py:9-11 | Creating an instance's directories a second time changes nothing. |
| Klipper.CreateInstanceDirs | fp_core/klipper.py:7-13 | The filesystem becomes `InstanceDirs` of the old one, and the instance root is returned on success. |
| Klipper.Clone | fp_core/klipper.py:16-22 | An existing target is returned with no command and no change. Otherwise exactly one `git clone <template> <target>` is issued. It succeeds exactly when the clone exits 0, and the target is then a new directory and the only added entry. A non-zero exit raises with that command and code, leaving the filesystem unchanged. |
| Klipper.CloneKlipper | fp_core/klipper.py:16-22 | Its effect on the machine and its result are exactly `Clone`. |
| Klipper.BasePrinterCfg | fp_core/klipper.py:25-33 | An existing `printer.cfg` is left as it is. Otherwise, in an existing config directory, it receives the base template. |
| Klipper.BasePrinterCfgIdempotent | fp_core/klipper.py:26-28 | Writing the base config twice equals writing it once. |
| Klipper.WriteBasePrinterCfg | fp_core/klipper.py:25-33 | The filesystem and outcome are those of `BasePrinterCfg`. |
| Klipper.MmuSteppersCfg | fp_core/klipper.py:35-77 | On success `config/mmu` is a directory and `mmu_steppers.cfg` exists. An existing file is never rewritten. When `config/mmu` is missing, or already a directory without the file, the result is exactly the old filesystem plus the directory and the fixed stepper text. Existing entries are kept. |
| Klipper.MmuSteppersCfgIdempotent | fp_core/klipper.py:36-41 | Writing the stepper config twice equals writing it once. |
| Klipper.WriteMmuSteppersCfg | fp_core/klipper.py:35-77 | The filesystem and outcome are those of `MmuSteppersCfg`. |
| Systemd.KlipperService | fp_core/systemd.py:37-48 | The unit goes to `/etc/systemd/system/<service_name>.service` and holds the klipper unit template filled from the record, with logs at `parent(config_dir)/logs`. It succeeds exactly when the path is not a directory and the unit directory exists. |
| Systemd.WriteKlipperService | fp_core/systemd.py:37-48 | The filesystem and outcome are those of `KlipperService`, and the unit path is returned. |
| Systemd.MoonrakerService | fp_core/systemd.py:51-75 | The unit is named after the id (`moonraker{id}`) and holds its template. An existing `moonraker.conf` is untouched. A new one holds the record's port. No entry is removed, only the unit file may be rewritten, and at most `moonraker.conf` and the unit are added. On success the new filesystem is exactly the old one with `moonraker.conf` written if it was absent, then the unit written. |
| Systemd.WriteMoonrakerService | fp_core/systemd.py:51-75 | The filesystem and outcome are those of `MoonrakerService`. |
| Systemd.RunChecked | fp_core/systemd.py:79-81 | Checked commands are issued in order, and the first non-zero exit raises. Only a prefix is issued, and on failure the last issued command is the one that failed. |
| Systemd.RunCheckedCodes | fp_core/systemd.py:79-81 | A checked sequence succeeds exactly when every command exits 0 given the ones before it. When it fails, every command before the failing one exited 0. |
| Systemd.RunCheckedLog | fp_core/systemd.py:79-81 | The issued commands are a prefix of the sequence. A failure is the last issued command, with the non-zero exit code it got. |
| Systemd.EffectThenRun | _backup_full_rebuild_20260119_025858/_backup_full_rebuild_20260119_025715/_backup_repo_restructure_20260119_025438/fluxpath.py:62-65 | A file step followed by checked commands. The filesystem is the step's result. It succeeds exactly when the step succeeds and every command exits 0, and then all commands were issued. A failed step issues nothing and is the result. A failing command is the last one issued. |
| Systemd.ConfIsNotUnit | fp_core/systemd.py:52-56 | `moonraker.conf` of any config directory is never the moonraker unit file, so writing the unit cannot overwrite it. |
| Systemd.ReloadAndEnable | fp_core/systemd.py:78-82 | daemon-reload, enable, start: the log grows by the issued prefix and the outcome is that of the checked run. |
| Systemd.RestartService | fp_core/systemd.py:85-87 | Exactly one `sudo systemctl restart <name>`, whose failure raises. |
| Systemd.StopRun | fp_core/systemd.py:90-95 | stop and disable are always issued, and their exit codes are ignored. It succeeds exactly when the unit path is neither a directory nor below a file and daemon-reload exits 0. The unit file is then gone, nothing else changed, and the three commands were issued. A directory raises IsADirectoryError and a file on the way raises NotADirectoryError, with the filesystem unchanged and only stop/disable issued. Whatever the outcome, only that one file may be removed. |
| Systemd.StopAndDisable | fp_core/systemd.py:90-95 | Its effect on the machine and its result are exactly `StopRun`. |
| Systemd.StateOfCode | fp_core/systemd.py:101-106 | Exit 0 is active, 3 is inactive, and anything else is unknown. |
| Systemd.ServiceStatus | fp_core/systemd.py:98-106 | An empty name is unknown with no command issued. Otherwise one `is-active` query is issued and its exit code is mapped. |
| Orchestrator.GetInstance | _backup_full_rebuild_20260119_025858/_backup_full_rebuild_20260119_025715/_backup_repo_restructure_20260119_025438/fluxpath.py:33-34 | None exactly when no record has the id. Otherwise the first record with that id. |
| Orchestrator.CreatedRecord | _backup_full_rebuild_20260119_025858/_backup_full_rebuild_20260119_025715/_backup_repo_restructure_20260119_025438/fluxpath.py:39-66 | The new record has the next id, ports free in their families, config/clone paths derived from the id, and active exactly when not a sandbox. |
| Orchestrator.CreatedRecordsDiffer | _backup_full_rebuild_20260119_025858/_backup_full_rebuild_20260119_025715/_backup_repo_restructure_20260119_025438/fluxpath.py:48-59 | Records with different ids differ in name, both unit names, config directory and clone directory. |
| Orchestrator.CloneThenCfg | _backup_full_rebuild_20260119_025858/_backup_full_rebuild_20260119_025715/_backup_repo_restructure_20260119_025438/fluxpath.py:43-46 | In an existing config directory, the clone command is issued exactly when the clone is absent. A success returns the config directory. A failure is the clone command, with its non-zero code. |
| Orchestrator.CloneThenCfgFrame | _backup_full_rebuild_20260119_025858/_backup_full_rebuild_20260119_025715/_backup_repo_restructure_20260119_025438/fluxpath.py:43-46 | Only paths under `/home` change, and every entry is kept. It succeeds exactly when the clone exists or `git clone` exits 0. A failure leaves the filesystem unchanged. |
| Orchestrator.CloneThenCfgWrites | _backup_full_rebuild_20260119_025858/_backup_full_rebuild_20260119_025715/_backup_repo_restructure_20260119_025438/fluxpath.py:43-46 | After a success the config directory and the clone exist. `printer.cfg` is the old entry if there was one, and the base template otherwise. |
| Orchestrator.ProvisionRun | _backup_full_rebuild_20260119_025858/_backup_full_rebuild_20260119_025715/_backup_repo_restructure_20260119_025438/fluxpath.py:42-46 | Directories, then clone, then base config. The log is the old one plus a prefix of the clone command, which is issued exactly when the clone was absent. A success returns the config directory and issued it. A failing command is the last one issued. |
| Orchestrator.ProvisionFrame | _backup_full_rebuild_20260119_025858/_backup_full_rebuild_20260119_025715/_backup_repo_restructure_20260119_025438/fluxpath.py:42-46 | Only paths under `/home` change, and every entry is kept. It succeeds exactly when the three directories can be made and the clone exists or `git clone` exits 0. A failure leaves the directories made before it. A failure without a failing command is the directory error, with nothing issued. |
| Orchestrator.ProvisionWrites | _backup_full_rebuild_20260119_025858/_backup_full_rebuild_20260119_025715/_backup_repo_restructure_20260119_025438/fluxpath.py:42-46 | After a success the config directory and the clone exist. `printer.cfg` is the old entry if there was one, and the base template otherwise. |
| Orchestrator.Provision | _backup_full_rebuild_20260119_025858/_backup_full_rebuild_20260119_025715/_backup_repo_restructure_20260119_025438/fluxpath.py:42-46 | Its effect on the machine and its result are exactly `ProvisionRun`. |
| Orchestrator.CloneAndWriteCfg | _backup_full_rebuild_20260119_025858/_backup_full_rebuild_20260119_025715/_backup_repo_restructure_20260119_025438/fluxpath.py:43-46 | Its effect on the machine and its result are exactly `CloneThenCfg`. |
| Orchestrator.ServicesUp | _backup_full_rebuild_20260119_025858/_backup_full_rebuild_20260119_025715/_backup_repo_restructure_20260119_025438/fluxpath.py:61-66 | The issued commands are a prefix of reload/enable/start for `klipper{id}`, then for `moonraker{id}`. A success issued all six. A failing command is the last one issued. |
| Orchestrator.ServicesUpFrame | _backup_full_rebuild_20260119_025858/_backup_full_rebuild_20260119_025715/_backup_repo_restructure_20260119_025438/fluxpath.py:61-66 | Whatever the outcome, only the two unit files may be rewritten, nothing is removed, and at most the two units and `moonraker.conf` are added. |
| Orchestrator.ServicesUpSucceeds | _backup_full_rebuild_20260119_025858/_backup_full_rebuild_20260119_025715/_backup_repo_restructure_20260119_025438/fluxpath.py:61-66 | It succeeds exactly when the klipper unit can be written, the moonraker files can be written after it, and all six commands exit 0. |
| Orchestrator.ServicesUpFailure | _backup_full_rebuild_20260119_025858/_backup_full_rebuild_20260119_025715/_backup_repo_restructure_20260119_025438/fluxpath.py:61-66 | A failure without a failing command is the klipper unit's write error, with nothing issued. Otherwise it is the moonraker write error, after the klipper unit's three commands. |
| Orchestrator.ServicesUpWrites | _backup_full_rebuild_20260119_025858/_backup_full_rebuild_20260119_025715/_backup_repo_restructure_20260119_025438/fluxpath.py:61-66 | After a success the moonraker unit holds its template and `moonraker.conf` exists. The klipper unit holds its template unless the two unit paths coincide. The filesystem is exactly the klipper unit write followed by `MoonrakerService`. |
| Orchestrator.EnableKlipper | _backup_full_rebuild_20260119_025858/_backup_full_rebuild_20260119_025715/_backup_repo_restructure_20260119_025438/fluxpath.py:62-63 | Its effect on the machine is exactly the klipper unit write, then reload/enable/start of `klipper{id}` unless the write failed. |
| Orchestrator.EnableMoonraker | _backup_full_rebuild_20260119_025858/_backup_full_rebuild_20260119_025715/_backup_repo_restructure_20260119_025438/fluxpath.py:64-65 | Its effect on the machine is exactly the moonraker writes, then reload/enable/start of `moonraker{id}` unless a write failed. |
| Orchestrator.EnableServices | _backup_full_rebuild_20260119_025858/_backup_full_rebuild_20260119_025715/_backup_repo_restructure_20260119_025438/fluxpath.py:61-66 | Its effect on the machine and its result are exactly `ServicesUp`. |
| Orchestrator.CreateRun | _backup_full_rebuild_20260119_025858/_backup_full_rebuild_20260119_025715/_backup_repo_restructure_20260119_025438/fluxpath.py:37-72 | The issued commands are a prefix of the clone command when the clone is absent, followed for a live create by the six supervisor commands. A success returns `CreatedRecord` and issued all of them. A failing command is the last one issued. |
| Orchestrator.LiveCreate | _backup_full_rebuild_20260119_025858/_backup_full_rebuild_20260119_025715/_backup_repo_restructure_20260119_025438/fluxpath.py:61-66 | The service half for the new record. A success returns the record, active, after the six supervisor commands. A failing command is the last one issued. |
| Orchestrator.CreateSucceeds | _backup_full_rebuild_20260119_025858/_backup_full_rebuild_20260119_025715/_backup_repo_restructure_20260119_025438/fluxpath.py:37-72 | A create succeeds exactly when provisioning does and, for a live create, the service half then does. |
| Orchestrator.CreateFrameSandbox | _backup_full_rebuild_20260119_025858/_backup_full_rebuild_20260119_025715/_backup_repo_restructure_20260119_025438/fluxpath.py:37-72 | A sandbox create, whatever its outcome, changes only paths under `/home` and keeps every existing entry. |
| Orchestrator.LiveCreateFrame | _backup_full_rebuild_20260119_025858/_backup_full_rebuild_20260119_025715/_backup_repo_restructure_20260119_025438/fluxpath.py:61-66 | The service half keeps every entry except the two unit files, removes nothing, and adds at most the two units and `moonraker.conf`. |
| Orchestrator.LiveCreateKeepsHome | _backup_full_rebuild_20260119_025858/_backup_full_rebuild_20260119_025715/_backup_repo_restructure_20260119_025438/fluxpath.py:61-66 | The service half leaves every entry under `/home` as it was. The `moonraker.conf` it may add lies under `/home`. |
| Orchestrator.CreateFrameLive | _backup_full_rebuild_20260119_025858/_backup_full_rebuild_20260119_025715/_backup_repo_restructure_20260119_025438/fluxpath.py:37-72 | A live create, whatever its outcome, keeps every entry except the unit files `klipper{id}` and `moonraker{id}`. It adds nothing outside `/home` besides them. |
| Orchestrator.CreateWritesProvisioned | _backup_full_rebuild_20260119_025858/_backup_full_rebuild_20260119_025715/_backup_repo_restructure_20260119_025438/fluxpath.py:42-46 | After a successful create, the record's config directory, its clone and its `printer.cfg` exist. |
| Orchestrator.LiveCreateWrites | _backup_full_rebuild_20260119_025858/_backup_full_rebuild_20260119_025715/_backup_repo_restructure_20260119_025438/fluxpath.py:61-66 | After a successful service half, both unit files hold their templates filled from the new record. |
| Orchestrator.CreateWritesUnits | _backup_full_rebuild_20260119_025858/_backup_full_rebuild_20260119_025715/_backup_repo_restructure_20260119_025438/fluxpath.py:61-66 | After a successful live create, both unit files hold their templates filled from the returned record. |
| Orchestrator.InstanceCreate | _backup_full_rebuild_20260119_025858/_backup_full_rebuild_20260119_025715/_backup_repo_restructure_20260119_025438/fluxpath.py:37-80 | Its effect on the machine and its result are exactly `CreateRun`. A success saves exactly the old registry plus the created record, and keeps the registry distinct. A failure leaves the registry unsaved. |
| Orchestrator.DisplayStatus | _backup_full_rebuild_20260119_025858/_backup_full_rebuild_20260119_025715/_backup_repo_restructure_20260119_025438/fluxpath.py:91 | The listed status is "active" exactly when the stored flag is set, and "inactive" otherwise. |
| Orchestrator.InstanceList | _backup_full_rebuild_20260119_025858/_backup_full_rebuild_20260119_025715/_backup_repo_restructure_20260119_025438/fluxpath.py:83-103 | One row per record, in registry order, carrying its id, ports and flag-derived status. |
| Orchestrator.Install | _backup_full_rebuild_20260119_025858/_backup_full_rebuild_20260119_025715/_backup_repo_restructure_20260119_025438/fluxpath.py:106-114 | An unknown id issues nothing. A missing installer raises before any command. Otherwise exactly one `bash <installer>` runs with `CONFIG_DIR` set to the record's config directory. It succeeds exactly when the installer exits 0, and a non-zero exit raises CalledProcessError for that command and its code. |
| Orchestrator.InstanceRestart | _backup_full_rebuild_20260119_025858/_backup_full_rebuild_20260119_025715/_backup_repo_restructure_20260119_025438/fluxpath.py:117-133 | Unknown ids and sandbox records issue nothing. Otherwise each named unit is restarted in order, stopping at the first failure. |
| Orchestrator.TeardownIssues | _backup_full_rebuild_20260119_025858/_backup_full_rebuild_20260119_025715/_backup_repo_restructure_20260119_025438/fluxpath.py:149-153 | `stop_and_disable` runs for the klipper unit, then for the moonraker unit, each only when the record names it. The issued commands are a prefix of the stop/disable/daemon-reload triples. A success issued all of them. A failing command is the last one issued. |
| Orchestrator.TeardownFrame | _backup_full_rebuild_20260119_025858/_backup_full_rebuild_20260119_025715/_backup_repo_restructure_20260119_025438/fluxpath.py:149-153 | Whatever the outcome, only files are removed, and only the record's unit files. Every other entry is kept. |
| Orchestrator.TeardownRemovesUnits | _backup_full_rebuild_20260119_025858/_backup_full_rebuild_20260119_025715/_backup_repo_restructure_20260119_025438/fluxpath.py:149-153 | After a success the filesystem is exactly the old one minus the record's unit files. |
| Orchestrator.TeardownSucceeds | _backup_full_rebuild_20260119_025858/_backup_full_rebuild_20260119_025715/_backup_repo_restructure_20260119_025438/fluxpath.py:149-153 | It succeeds exactly when each named unit path is neither a directory nor below a file in the old filesystem, and each daemon-reload exits 0. |
| Orchestrator.TeardownFailure | _backup_full_rebuild_20260119_025858/_backup_full_rebuild_20260119_025715/_backup_repo_restructure_20260119_025438/fluxpath.py:149-153 | A failure without a failing command is IsADirectoryError or NotADirectoryError at one of the record's unit paths, matching its state in the old filesystem. |
| Orchestrator.StopServices | _backup_full_rebuild_20260119_025858/_backup_full_rebuild_20260119_025715/_backup_repo_restructure_20260119_025438/fluxpath.py:149-153 | Its effect on the machine and its result are exactly `TeardownRun`. |
| Orchestrator.RemoveInstanceFiles | _backup_full_rebuild_20260119_025858/_backup_full_rebuild_20260119_025715/_backup_repo_restructure_20260119_025438/fluxpath.py:155-160 | Only removals. An entry survives exactly when it is under neither the instance root nor the clone, counting each only when it was a directory. Survivors keep their contents. |
| Orchestrator.DeleteRun | _backup_full_rebuild_20260119_025858/_backup_full_rebuild_20260119_025715/_backup_repo_restructure_20260119_025438/fluxpath.py:136-160 | An unknown id or a missing `--force` changes nothing and issues nothing. A forced delete that succeeds reports Deleted. |
| Orchestrator.DeleteFrame | _backup_full_rebuild_20260119_025858/_backup_full_rebuild_20260119_025715/_backup_repo_restructure_20260119_025438/fluxpath.py:136-160 | A forced delete only shrinks the filesystem. A sandbox delete issues no command and removes the two trees. A failed delete has removed at most the record's unit files, and only files. |
| Orchestrator.DeleteIssues | _backup_full_rebuild_20260119_025858/_backup_full_rebuild_20260119_025715/_backup_repo_restructure_20260119_025438/fluxpath.py:149-160 | A forced live delete issues a prefix of the teardown commands. On success it issued all of them, and the filesystem is the old one minus the unit files, with the two trees then removed. A failing command is the last one issued. |
| Orchestrator.DeleteRemovesTrees | _backup_full_rebuild_20260119_025858/_backup_full_rebuild_20260119_025715/_backup_repo_restructure_20260119_025438/fluxpath.py:155-160 | After a successful forced delete, nothing is left below the instance root or the clone, where either was a directory. |
| Orchestrator.DeleteSucceeds | _backup_full_rebuild_20260119_025858/_backup_full_rebuild_20260119_025715/_backup_repo_restructure_20260119_025438/fluxpath.py:149-160 | A forced delete of a known record succeeds exactly when the record is a sandbox or its teardown is clean (`TeardownSucceeds`). |
| Orchestrator.InstanceDelete | _backup_full_rebuild_20260119_025858/_backup_full_rebuild_20260119_025715/_backup_repo_restructure_20260119_025438/fluxpath.py:136-165 | Its effect on the machine and its result are exactly `DeleteRun`. The registry is saved without the id exactly when the delete reports Deleted. Otherwise it is not saved. |
| Orchestrator.InstanceDiag | _backup_full_rebuild_20260119_025858/_backup_full_rebuild_20260119_025715/_backup_repo_restructure_20260119_025438/fluxpath.py:168-215 | Reports existence of the directories and config files. Live records get one `is-active` query per named unit and sandbox records none. Nothing but queries is issued. |
| Orchestrator.WithoutMembers | _backup_full_rebuild_20260119_025858/_backup_full_rebuild_20260119_025715/_backup_repo_restructure_20260119_025438/fluxpath.py:162 | The filtered registry holds exactly the records whose id differs. |
| Orchestrator.WithoutRemovesOne | _backup_full_rebuild_20260119_025858/_backup_full_rebuild_20260119_025715/_backup_repo_restructure_20260119_025438/fluxpath.py:162-163 | With distinct ids, deleting one id keeps every other record, in order. |
| Orchestrator.WithoutKeepsDistinct | _backup_full_rebuild_20260119_025858/_backup_full_rebuild_20260119_025715/_backup_repo_restructure_20260119_025438/fluxpath.py:162 | Deleting keeps ids and per-family ports distinct. |
| Orchestrator.ReplayKeepsDistinct | _backup_full_rebuild_20260119_025858/_backup_full_rebuild_20260119_025715/_backup_repo_restructure_20260119_025438/fluxpath.py:38-72 | Across any sequence of creates and deletes, ids and per-family ports stay pairwise distinct. |
| Orchestrator.EndToEndScenario | _backup_full_rebuild_20260119_025858/_backup_full_rebuild_20260119_025715/_backup_repo_restructure_20260119_025438/fluxpath.py:37-72 | From empty: a live create gets id 1, ports 7125/7126 and is active. A sandbox create gets id 2, ports 7135/7136 and is inactive. Deleting id 1 leaves only id 2. |
| Orchestrator.CreateDeleteCreate | fp_core/instances.py:36-39 | From any registry, create then delete of the new id gives the registry back, and the next create receives the same id as the deleted record. |
| MmuController.ApplyUpdate | backend/mmu/controller.py:26-29 | Exactly the fields named in the update change, and the slots never do. |
| MmuController.InitialSlots | backend/mmu/controller.py:15-18 | One unloaded slot per drive motor, with index i and colour `colors[i]` or "Slot i+1". |
| MmuController.MarkFilament | backend/mmu/controller.py:48-50 | Only the filament flag of the slots with the given index changes. Count, indices and colours stay. |
| MmuController.LoadSlot | backend/mmu/controller.py:40-51 | Out of range: Error with "Invalid slot i" and nothing else changed. Otherwise idle, with slot i active and flagged, the rest unchanged, and the last error kept. |
| MmuController.Unload | backend/mmu/controller.py:53-65 | No active slot: Error with "No active slot to unload". Otherwise idle, nothing active, the active slot's flag cleared and the others unchanged. |
| MmuController.Recover | backend/mmu/controller.py:71-76 | Ends idle with no error. Everything else is unchanged. |
| MmuController.LoadFlagsOneSlot | backend/mmu/controller.py:48-50 | With slots laid out by index, loading flags exactly slot i. |
| MmuController.LoadThenUnload | backend/mmu/controller.py:40-65 | Load then unload returns to idle with nothing active. The only slot change is that slot i ends up unflagged. |
| MmuController.ToolchangeFromEmpty | backend/mmu/controller.py:67-69 | A tool change with nothing loaded still loads. The unload's error message survives. |
| MmuController.Controller.constructor | backend/mmu/controller.py:7-21 | Idle, nothing active, no error, simulated, with the initial slots. |
| MmuController.Controller.Update | backend/mmu/controller.py:26-34 | The status becomes `ApplyUpdate` of the old one. |
| MmuController.Controller.GetStatus | backend/mmu/controller.py:36-38 | Returns the current status. |
| MmuController.Controller.SetFilament | backend/mmu/controller.py:48-50 | The slot loop leaves the slots as `MarkFilament` of the old ones. |
| MmuController.Controller.SimulateLoadSlot | backend/mmu/controller.py:40-51 | The status becomes `LoadSlot` of the old one, and the slot layout invariant is kept. |
| MmuController.Controller.SimulateUnload | backend/mmu/controller.py:53-65 | The status becomes `Unload` of the old one, and the invariant is kept. |
| MmuController.Controller.SimulateToolchange | backend/mmu/controller.py:67-69 | Exactly an unload followed by a load. |
| MmuController.Controller.SimulateRecover | backend/mmu/controller.py:71-76 | The status becomes `Recover` of the old one. |
| MmuManager.ToFilament | fluxpath/core/mmu.py:42-48 | Missing fields default to "#FFFFFF", "PLA" and None. Given fields are kept. |
| MmuManager.Put | fluxpath/core/mmu.py:43 | Dict assignment: tools stay distinct, the tool set grows by the new tool, the new entry is present, and entries of other tools are kept. |
| MmuManager.PutReplaces | fluxpath/core/mmu.py:43 | Assigning a tool already present replaces its entry in place. Every other entry keeps its position. |
| MmuManager.PutAppends | fluxpath/core/mmu.py:43 | Assigning a new tool appends its entry after all the others. |
| MmuManager.Collect | fluxpath/core/mmu.py:40-48 | The table built from the inputs has one entry per tool. |
| MmuManager.CollectTools | fluxpath/core/mmu.py:41-48 | A tool has an entry exactly when some input names it. |
| MmuManager.CollectLastWins | fluxpath/core/mmu.py:43-48 | For a repeated tool, the entry holds the last input's values. |
| MmuManager.Manager.constructor | fluxpath/core/mmu.py:27-34 | An empty table. |
| MmuManager.Manager.GetCapabilities | fluxpath/core/mmu.py:36-37 | 4 tools, tower purge, minimum 80 and maximum 300. |
| MmuManager.Manager.GetFilaments | fluxpath/core/mmu.py:51-52 | The stored entries, one per tool. |
| MmuManager.Manager.SetFilaments | fluxpath/core/mmu.py:39-49 | Previous entries are discarded. The table becomes `Collect` of the inputs and is returned. An unreadable tool raises, leaving the entries stored before it. |
| MmuManager.Manager.PlanToolchanges | fluxpath/core/mmu.py:54-70 | The sequence is returned unchanged. The purge estimate is max(0, (n-1)·100). At most one warning, present exactly when the estimate exceeds the maximum. |
| MmuManager.Manager.PlanWarnsFromFive | fluxpath/core/mmu.py:59-62 | A plan warns exactly when it has five or more entries. |
| InstanceManager.Manager.constructor | core/instances.py:15-17 | An empty table. |
| InstanceManager.Manager.ListInstances | core/instances.py:19-21 | One record per stored instance, in creation order. |
| InstanceManager.Manager.GetInstance | core/instances.py:30-33 | None exactly for an unknown id. Otherwise the stored record. |
| InstanceManager.Manager.CreateInstance | core/instances.py:23-28 | Adds exactly one record (fresh id, given name, "idle"). Every existing record is untouched. |
| InstanceManager.Manager.SetStatus | core/instances.py:35-41 | An unknown id gives None and changes nothing. Otherwise only that record's status changes, and the updated record is returned. |

## Left out

- JSON (de)serialisation of the registry: the store keeps the list itself. A corrupt or unreadable registry file, and a failing `save_instances`, are not modelled.
- Paths are component lists. The symlinks, permissions, `..` components and text encodings of real paths are not modelled.
- The filesystem is a map with no tree invariant: an entry may sit below a missing directory or a file. The operations read it as a tree: a path is resolved prefix by prefix, and the first prefix that is a file or missing decides the error (`Host.Blocker`). `rmtree` is all-or-nothing. Partial removal after an ignored error is not modelled.
- Templates.Render: file contents are compared by template and filled values. Nothing is proved about the rendered characters beyond their definition.
- Host.Machine.Exec: exit codes come from an environment function of the command and the log. git, systemctl and the installer script change no modelled state except as stated: a successful clone becomes an empty directory at the target, whose contents are not modelled. A command that cannot be started at all (a missing `sudo`, `git` or `bash`, which makes `subprocess.run` raise FileNotFoundError or OSError even with `check=False`) is not modelled: every command is assumed to start and return an exit code.
- Klipper.CloneKlipper: `git clone` creating missing parent directories is taken for granted; the target directory is added whatever its parent.
- Orchestrator.Install: the installer's own effects are not modelled, only the check for it and the one command. The rest of the environment handed to it (`os.environ`) is not modelled; only the added `CONFIG_DIR` is.
- Console output of every command is not modelled: colouring, headers, the printed create summary and the diag report text. Diag returns its findings as a value instead.
- argparse and `main()` are not modelled; each command is a method taking its arguments.
- MmuController.Controller.SimulateLoadSlot: the lock, the `time.sleep` between the two phases, `updated_at` timestamps and the broadcast callback are not modelled. Each simulated operation runs to completion, so the transient Loading, Unloading and Recovering states are not observable. The Toolchange state, which the code never sets, is declared but unused.
- MmuController.MmuConfig keeps only `drive_motors` and `colors`; the pin, cutter and distance fields are never read by the controller.
- MmuManager.Manager.PlanToolchanges: volumes are integers, since every value is a multiple of 100. Python's float formatting of the warning ("400.0") is written as the integer followed by ".0".
- MmuManager.FilamentInput: `int(f["tool"])` failing for any reason (missing key, non-numeric text) is one case. Values of other types in the dict are not modelled.
- InstanceManager.Manager.CreateInstance: uuid generation is a `freshId` argument required to be unused; the lock is not modelled.
