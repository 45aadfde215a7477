/**
 * The machine the manager runs on, as the Python code sees it: a filesystem reached
 * through `pathlib` and commands run through `subprocess` (fp_core/utils.py `run_cmd`).
 * The filesystem is a map from absolute paths (sequences of components) to nodes; the
 * commands issued are kept, in order, in a log; what each command exits with is decided
 * by the environment (`answer`), from the command and everything issued before it.
 */
module Host {
  import opened Wrappers

  /** An absolute path as its components: `/etc/systemd/system` is `["etc", "systemd", "system"]`. */
  type Path = seq<string>

  /**
   * What a file holds. Every file the manager writes is one of its text templates with
   * values filled in, so such a file is recorded by its template and those values;
   * module Templates renders each to its characters. Any other file is `OtherText`.
   */
  datatype Text =
    | BasePrinterCfgFile
    | MmuSteppersCfgFile
    | KlipperUnitFile(id: int, klipperDir: Path, configDir: Path, logsDir: Path)
    | MoonrakerUnitFile(id: int, configPath: Path, configDir: Path)
    | MoonrakerConfFile(port: int)
    | OtherText(chars: string)

  datatype Node = Dir | File(text: Text)

  type FileMap = map<Path, Node>

  /** One process invocation: its argument vector and any variables added to its environment. */
  datatype Cmd = Cmd(argv: seq<string>, env: map<string, string>)

  /** The environment's answer to a command: its exit code, given everything issued before it. */
  type Answer = (seq<Cmd>, Cmd) -> int

  /** The exceptions the modelled code lets propagate. */
  datatype Error =
    | CommandFailed(cmd: Cmd, code: int)   // subprocess.CalledProcessError (check=True)
    | FileExists(path: Path)               // mkdir over an existing non-directory
    | IsADirectory(path: Path)             // write_text or unlink on a directory
    | NotADirectory(path: Path)            // resolving the path met a file on the way
    | FileNotFound(path: Path)             // an absent file, or an absent directory on the way

  function Parent(p: Path): Path {
    if p == [] then [] else p[..|p| - 1]
  }

  predicate IsPrefix(p: Path, q: Path) {
    |p| <= |q| && q[..|p|] == p
  }

  /** `Path.exists()`; the root always exists. */
  predicate Exists(fs: FileMap, p: Path) {
    p == [] || p in fs
  }

  /** `Path.is_dir()`. */
  predicate IsDir(fs: FileMap, p: Path) {
    p == [] || (p in fs && fs[p].Dir?)
  }

  /**
   * Path resolution of `d` from the root: the first prefix of `d` that is not a directory,
   * or None when every prefix is one.
   */
  function Blocker(fs: FileMap, d: Path): (b: Option<Path>)
    ensures b.None? ==> IsDir(fs, d)
    ensures b.Some? ==> IsPrefix(b.value, d) && !IsDir(fs, b.value)
    decreases |d|
  {
    if d == [] then None
    else match Blocker(fs, Parent(d))
      case Some(q) =>
        assert d[..|q|] == Parent(d)[..|q|];
        Some(q)
      case None => if IsDir(fs, d) then None else Some(d)
  }

  /** Removing an entry longer than `d` does not change how `d` resolves. */
  lemma {:induction false} BlockerWithout(fs: FileMap, d: Path, q: Path)
    requires |q| > |d|
    ensures Blocker(fs - {q}, d) == Blocker(fs, d)
    decreases |d|
  {
    if d != [] {
      BlockerWithout(fs, Parent(d), q);
    }
  }

  /** Resolving the parent of `p` stops at a file, so the system call fails with ENOTDIR. */
  predicate ThroughFile(fs: FileMap, p: Path) {
    var b := Blocker(fs, Parent(p));
    b.Some? && b.value in fs
  }

  /** Removing an entry at least as long as `p` does not change whether `p`'s parent resolves. */
  lemma ThroughFileWithout(fs: FileMap, p: Path, q: Path)
    requires |q| >= |p|
    ensures ThroughFile(fs - {q}, p) <==> ThroughFile(fs, p)
  {
    if p != [] {
      BlockerWithout(fs, Parent(p), q);
    }
  }

  /** No entry on the way to `p`, the root aside, is a file. */
  predicate NoFileOn(fs: FileMap, p: Path) {
    forall q :: IsPrefix(q, p) && q != [] && q in fs ==> fs[q].Dir?
  }

  /**
   * What a call on `p` raises when `p`'s parent is not a directory: `NotADirectoryError`
   * when resolution stops at a file, `FileNotFoundError` when it stops at a missing entry.
   */
  function ParentError(fs: FileMap, p: Path): (e: Error)
    ensures e == NotADirectory(p) <==> ThroughFile(fs, p)
    ensures e == FileNotFound(p) <==> !ThroughFile(fs, p)
  {
    if ThroughFile(fs, p) then NotADirectory(p) else FileNotFound(p)
  }

  /** `after` keeps every entry of `before`, with the same contents. */
  predicate Extends(before: FileMap, after: FileMap) {
    forall p :: p in before ==> p in after && after[p] == before[p]
  }

  /** `after` only lost entries of `before`; nothing was added or rewritten. */
  predicate Shrinks(before: FileMap, after: FileMap) {
    forall p :: p in after ==> p in before && after[p] == before[p]
  }

  /** Every entry of `before` outside `changed` is in `after`, with the same contents. */
  predicate KeepsExcept(before: FileMap, after: FileMap, changed: set<Path>) {
    forall p :: p in before && p !in changed ==> p in after && after[p] == before[p]
  }

  /** Removing two sets of paths one after the other removes their union. */
  lemma WithoutTwice(fs: FileMap, s1: set<Path>, s2: set<Path>)
    ensures fs - s1 - s2 == fs - (s1 + s2)
  {
  }

  /** Entries kept outside `changed` include every entry below a top directory `changed` avoids. */
  lemma KeepsUnder(before: FileMap, after: FileMap, changed: set<Path>, top: string)
    requires KeepsExcept(before, after, changed)
    requires forall p :: p in changed ==> p != [] && p[0] != top
    ensures forall q :: q in before && q != [] && q[0] == top ==> q in after && after[q] == before[q]
  {
  }

  /** Entries kept outside `s1`, then outside `s2`, are kept outside both. */
  lemma KeepsExceptTrans(a: FileMap, b: FileMap, c: FileMap, s1: set<Path>, s2: set<Path>)
    requires KeepsExcept(a, b, s1) && KeepsExcept(b, c, s2)
    ensures KeepsExcept(a, c, s1 + s2)
  {
  }

  /** `after` only lost files of `before`: every directory is still there. */
  predicate RemovesOnlyFiles(before: FileMap, after: FileMap) {
    Shrinks(before, after) && forall p :: p in before && before[p].Dir? ==> p in after
  }

  lemma RemovesOnlyFilesTrans(a: FileMap, b: FileMap, c: FileMap)
    requires RemovesOnlyFiles(a, b) && RemovesOnlyFiles(b, c)
    ensures RemovesOnlyFiles(a, c)
  {
  }

  lemma IsPrefixTrans(p: Path, q: Path, r: Path)
    requires IsPrefix(p, q) && IsPrefix(q, r)
    ensures IsPrefix(p, r)
  {
    assert r[..|p|] == r[..|q|][..|p|];
  }

  /** Every entry whose path does not start with component `top` is the same before and after. */
  ghost predicate ChangesOnlyUnder(before: FileMap, after: FileMap, top: string) {
    forall p :: (p in before || p in after) && (p == [] || p[0] != top) ==>
      p in before && p in after && before[p] == after[p]
  }

  /**
   * A step that changes only paths under `top` and removes nothing, followed by one that
   * keeps every entry outside `changed` and adds only paths in `added`, each of which is
   * under `top` or in `changed`: together they keep every entry outside `changed` and add
   * only paths under `top` or in `changed`.
   */
  lemma UnderThenKeeps(f0: FileMap, f1: FileMap, f2: FileMap, top: string, changed: set<Path>, added: set<Path>)
    requires ChangesOnlyUnder(f0, f1, top) && Extends(f0, f1)
    requires KeepsExcept(f1, f2, changed) && f2.Keys <= f1.Keys + added
    requires forall q :: q in added ==> (q != [] && q[0] == top) || q in changed
    ensures KeepsExcept(f0, f2, changed)
    ensures forall q :: q in f2 && q !in f0 ==> (q != [] && q[0] == top) || q in changed
  {
  }

  /** Setting one path whose first component is `top` changes only paths under `top`. */
  lemma UpdateChangesOnlyUnder(fs: FileMap, p: Path, n: Node, top: string)
    requires p != [] && p[0] == top
    ensures ChangesOnlyUnder(fs, fs[p := n], top)
  {
  }

  /** Changes confined under `top` compose. */
  lemma ChangesOnlyUnderTrans(a: FileMap, b: FileMap, c: FileMap, top: string)
    requires ChangesOnlyUnder(a, b, top) && ChangesOnlyUnder(b, c, top)
    ensures ChangesOnlyUnder(a, c, top)
  {
  }

  /** `str(path)`: `/` before every component. */
  function PathString(p: Path): string {
    if p == [] then "" else PathString(p[..|p| - 1]) + "/" + p[|p| - 1]
  }

  /**
   * `Path.mkdir(parents=True, exist_ok=True)`: `os.mkdir(p)`; when that finds the parent
   * missing, the parents are made first and `p` is tried again. A file on the way makes
   * `os.mkdir` fail with ENOTDIR, which is re-raised for `p`; a file at `p` itself is
   * `FileExistsError`.
   */
  function MakeDirs(fs: FileMap, p: Path): (r: Result<FileMap, Error>)
    ensures r.Ok? ==> IsDir(r.value, p) && Extends(fs, r.value)
    ensures r.Ok? ==> forall q :: q in r.value && q !in fs ==> q != [] && IsPrefix(q, p) && r.value[q] == Dir
    ensures r.Ok? ==> forall q :: IsPrefix(q, p) ==> IsDir(r.value, q)
    ensures r.Ok? <==> NoFileOn(fs, p)
    ensures r.Err? ==> r.error == FileExists(p) || r.error == NotADirectory(p)
    ensures r.Err? ==> (r.error == FileExists(p) <==> forall q :: IsPrefix(q, p) && q != p && q != [] && q in fs ==> fs[q].Dir?)
    decreases |p|
  {
    if p == [] then Ok(fs)
    else
      assert forall q :: IsPrefix(q, p) && q != p ==> IsPrefix(q, Parent(p)) by {
        forall q | IsPrefix(q, p) && q != p ensures IsPrefix(q, Parent(p)) {
          assert Parent(p)[..|q|] == p[..|q|];
        }
      }
      assert forall q :: IsPrefix(q, Parent(p)) ==> IsPrefix(q, p) by {
        forall q | IsPrefix(q, Parent(p)) ensures IsPrefix(q, p) {
          assert Parent(p)[..|q|] == p[..|q|];
        }
      }
      match MakeDirs(fs, Parent(p))
      case Err(_) => Err(NotADirectory(p))
      case Ok(f1) =>
        if p in f1 then (if f1[p].Dir? then Ok(f1) else Err(FileExists(p)))
        else Ok(f1[p := Dir])
  }

  /**
   * `Path.mkdir(exist_ok=True)`: the parent must already be a directory; an existing
   * directory is fine, an existing file is `FileExistsError`.
   */
  function MakeDir(fs: FileMap, p: Path): (r: Result<FileMap, Error>)
    ensures r.Ok? <==> IsDir(fs, p) || (p !in fs && IsDir(fs, Parent(p)))
    ensures r.Ok? ==> IsDir(r.value, p) && Extends(fs, r.value)
    ensures r.Ok? ==> forall q :: q in r.value && q !in fs ==> q == p
    ensures r.Err? ==> r.error == if IsDir(fs, Parent(p)) then FileExists(p) else ParentError(fs, p)
  {
    if IsDir(fs, p) then Ok(fs)
    else if !IsDir(fs, Parent(p)) then Err(ParentError(fs, p))
    else if p in fs then Err(FileExists(p))
    else Ok(fs[p := Dir])
  }

  /** `Path.write_text(text)`: creates or truncates a file whose parent is a directory. */
  function WriteText(fs: FileMap, p: Path, text: Text): (r: Result<FileMap, Error>)
    ensures r.Ok? <==> !IsDir(fs, p) && IsDir(fs, Parent(p))
    ensures r.Ok? ==> r.value == fs[p := File(text)]
    ensures r.Err? ==> r.error == if IsDir(fs, Parent(p)) then IsADirectory(p) else ParentError(fs, p)
  {
    if !IsDir(fs, Parent(p)) then Err(ParentError(fs, p))
    else if IsDir(fs, p) then Err(IsADirectory(p))
    else Ok(fs[p := File(text)])
  }

  /**
   * "Write the default only if the file is absent", the shape of every configuration
   * writer in the core: an existing entry is never touched.
   */
  function WriteIfAbsent(fs: FileMap, p: Path, text: Text): (r: Result<FileMap, Error>)
    ensures Exists(fs, p) ==> r == Ok(fs)
    ensures !Exists(fs, p) ==> r == WriteText(fs, p, text)
  {
    if Exists(fs, p) then Ok(fs) else WriteText(fs, p, text)
  }

  /**
   * `Path.unlink(missing_ok=True)`: only `FileNotFoundError` is swallowed, so a directory
   * at `p` and a file on the way to it still raise.
   */
  function Unlink(fs: FileMap, p: Path): (r: Result<FileMap, Error>)
    ensures r.Ok? <==> !IsDir(fs, p) && !ThroughFile(fs, p)
    ensures r.Err? ==> r.error == if IsDir(fs, p) then IsADirectory(p) else NotADirectory(p)
    ensures r.Ok? ==> r.value == fs - {p}
    ensures r.Ok? ==> r.value.Keys == fs.Keys - {p} && forall q :: q in r.value ==> r.value[q] == fs[q]
  {
    if IsDir(fs, p) then Err(IsADirectory(p))
    else if ThroughFile(fs, p) then Err(NotADirectory(p))
    else Ok(fs - {p})
  }

  /** `shutil.rmtree(p, ignore_errors=True)`: removes a directory and everything below it; otherwise nothing. */
  function RemoveTree(fs: FileMap, p: Path): (r: FileMap)
    ensures forall q :: q in r <==> q in fs && !(IsDir(fs, p) && IsPrefix(p, q))
    ensures forall q :: q in r ==> r[q] == fs[q]
  {
    if IsDir(fs, p) then map q | q in fs && !IsPrefix(p, q) :: fs[q] else fs
  }

  /**
   * Where a sequence of filesystem steps left the filesystem, and whether it raised. Steps
   * that succeeded before the one that raised keep their effect.
   */
  datatype Effect = Effect(fs: FileMap, status: Result<(), Error>)

  /** The effect of one step. */
  function Step(fs: FileMap, r: Result<FileMap, Error>): Effect {
    Effect(After(fs, r), Status(r))
  }

  /** The filesystem after an operation: the new one when it succeeded, the old one when it raised. */
  function After(fs: FileMap, r: Result<FileMap, Error>): FileMap {
    if r.Ok? then r.value else fs
  }

  function Status(r: Result<FileMap, Error>): Result<(), Error> {
    if r.Ok? then Ok(()) else Err(r.error)
  }

  /**
   * What a command-line operation leaves behind: the filesystem, every command issued so
   * far, and what it returned or raised.
   */
  datatype Outcome<T> = Outcome(fs: FileMap, log: seq<Cmd>, result: Result<T, Error>)

  /**
   * `log` is `base` followed by the first few of `cmds`: the commands of a run that may have
   * stopped part-way.
   */
  predicate IssuedPrefix(base: seq<Cmd>, cmds: seq<Cmd>, log: seq<Cmd>) {
    |base| <= |log| <= |base| + |cmds| && log == (base + cmds)[..|log|]
  }

  /** Issuing nothing, or everything, leaves an issued prefix. */
  lemma IssuedNoneOrAll(base: seq<Cmd>, cmds: seq<Cmd>)
    ensures IssuedPrefix(base, cmds, base) && IssuedPrefix(base, cmds, base + cmds)
  {
    assert (base + cmds)[..|base|] == base;
  }

  /**
   * Running `a` and then, only if that succeeded, `b`: the commands issued are a prefix of
   * `a + b`, all of them on success, and a failure is the last command issued.
   */
  lemma IssuedThen<T, U>(answer: Answer, log: seq<Cmd>, a: seq<Cmd>, b: seq<Cmd>, first: Outcome<T>, second: Outcome<U>)
    requires IssuedPrefix(log, a, first.log)
    requires first.result.Ok? ==> first.log == log + a
    requires first.result.Err? ==> FailedLastCommand(answer, log, first.log, first.result.error)
    requires first.result.Ok? ==>
               && IssuedPrefix(log + a, b, second.log)
               && (second.result.Ok? ==> second.log == log + a + b)
               && (second.result.Err? ==> FailedLastCommand(answer, log + a, second.log, second.result.error))
    ensures first.result.Err? ==> IssuedPrefix(log, a + b, first.log)
    ensures first.result.Ok? ==>
              && IssuedPrefix(log, a + b, second.log)
              && (second.result.Ok? ==> second.log == log + (a + b))
              && (second.result.Err? ==> FailedLastCommand(answer, log, second.log, second.result.error))
  {
    if first.result.Err? {
      IssuedPrefixGrow(log, a, b, first.log);
    } else {
      IssuedPrefixThen(log, a, b, second.log);
      assert log + a + b == log + (a + b);
    }
  }

  /** A prefix of `a` is a prefix of `a + b`. */
  lemma IssuedPrefixGrow(base: seq<Cmd>, a: seq<Cmd>, b: seq<Cmd>, log: seq<Cmd>)
    requires IssuedPrefix(base, a, log)
    ensures IssuedPrefix(base, a + b, log)
  {
    assert (base + a + b)[..|log|] == (base + a)[..|log|];
  }

  /** Once all of `a` was issued, a prefix of `b` after it is a prefix of `a + b`. */
  lemma IssuedPrefixThen(base: seq<Cmd>, a: seq<Cmd>, b: seq<Cmd>, log: seq<Cmd>)
    requires IssuedPrefix(base + a, b, log)
    ensures IssuedPrefix(base, a + b, log)
  {
    assert base + a + b == base + (a + b);
  }

  /**
   * When `e` is a failed command, it is the last command issued after `base`, and the
   * environment answered it with that non-zero code.
   */
  predicate FailedLastCommand(answer: Answer, base: seq<Cmd>, log: seq<Cmd>, e: Error) {
    e.CommandFailed? ==>
      |base| < |log| && log[|log| - 1] == e.cmd && e.code != 0 && answer(log[..|log| - 1], e.cmd) == e.code
  }

  /** `subprocess.run(cmd, check=check)`: with check, a non-zero exit raises. */
  function Finish(cmd: Cmd, code: int, check: bool): (r: Result<int, Error>)
    ensures r.Err? <==> check && code != 0
    ensures r.Ok? ==> r.value == code
  {
    if check && code != 0 then Err(CommandFailed(cmd, code)) else Ok(code)
  }

  /** The command `run_cmd` executes: prefixed by `sudo` when asked. */
  function Invocation(argv: seq<string>, sudo: bool): (c: Cmd)
    ensures c.env == map[]
    ensures sudo ==> |c.argv| == |argv| + 1 && c.argv[0] == "sudo" && c.argv[1..] == argv
    ensures !sudo ==> c.argv == argv
  {
    Cmd(if sudo then ["sudo"] + argv else argv, map[])
  }

  /** Where every directory on the path already exists, `mkdir(parents=True, exist_ok=True)` changes nothing. */
  lemma {:induction false} MakeDirsNoop(fs: FileMap, p: Path)
    requires forall q :: IsPrefix(q, p) ==> IsDir(fs, q)
    ensures MakeDirs(fs, p) == Ok(fs)
    decreases |p|
  {
    if p != [] {
      forall q | IsPrefix(q, Parent(p)) ensures IsDir(fs, q) {
        assert Parent(p)[..|q|] == p[..|q|];
        assert IsPrefix(q, p);
      }
      MakeDirsNoop(fs, Parent(p));
      assert IsPrefix(p, p);
    }
  }

  lemma MakeDirsIdempotent(fs: FileMap, p: Path)
    requires MakeDirs(fs, p).Ok?
    ensures MakeDirs(MakeDirs(fs, p).value, p) == MakeDirs(fs, p)
  {
    MakeDirsNoop(MakeDirs(fs, p).value, p);
  }

  /**
   * Writing a default twice leaves what the first write left, even when the default text
   * changed in between.
   */
  lemma WriteIfAbsentIdempotent(fs: FileMap, p: Path, first: Text, second: Text)
    requires WriteIfAbsent(fs, p, first).Ok?
    ensures WriteIfAbsent(WriteIfAbsent(fs, p, first).value, p, second) == WriteIfAbsent(fs, p, first)
  {
  }

  class Machine {
    var fs: FileMap
    var log: seq<Cmd>
    const answer: Answer

    constructor (fs0: FileMap, answer: Answer)
      ensures fs == fs0 && log == [] && this.answer == answer
    {
      fs := fs0;
      log := [];
      this.answer := answer;
    }

    /** `subprocess.run`: the command is issued (logged) and its exit code is the environment's answer. */
    method Exec(cmd: Cmd, check: bool) returns (r: Result<int, Error>)
      modifies this`log
      ensures log == old(log) + [cmd]
      ensures r == Finish(cmd, answer(old(log), cmd), check)
    {
      var code := answer(log, cmd);
      log := log + [cmd];
      r := Finish(cmd, code, check);
    }

    /** fp_core/utils.py `run_cmd`. */
    method RunCmd(argv: seq<string>, sudo: bool, check: bool) returns (r: Result<int, Error>)
      modifies this`log
      ensures log == old(log) + [Invocation(argv, sudo)]
      ensures r == Finish(Invocation(argv, sudo), answer(old(log), Invocation(argv, sudo)), check)
    {
      r := Exec(Invocation(argv, sudo), check);
    }

    /** Applies a filesystem operation's outcome. */
    method Apply(r: Result<FileMap, Error>) returns (s: Result<(), Error>)
      modifies this`fs
      ensures fs == After(old(fs), r) && s == Status(r)
    {
      fs := After(fs, r);
      s := Status(r);
    }
  }
}
