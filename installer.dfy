/**
 * replaceCurrentVersion (cli/update.go): swaps the running executable for a
 * verified binary through a fresh temporary directory next to it and a
 * `.old` backup, removing the temporary directory on every way out.
 *
 * Where the executable lives, the random part of the temporary directory's
 * name and which operating-system calls fail are inputs (a Machine). The
 * functions FailedStep and FilesAfter say which step, if any, fails and what
 * the files are afterwards; ReplaceCurrentVersion carries out the steps on an
 * Fs and is proved to agree with them, and the lemmas below state the safety
 * properties of that outcome.
 */
module Installer {
  import opened Wrappers
  import opened FileSystem

  const BINARY_NAME := "dhcli"
  const WINDOWS := "windows"
  const TEMP_PREFIX := BINARY_NAME + "-cli-update"
  const BACKUP_SUFFIX := ".old"

  /** The install steps that can fail, in the order they run. */
  datatype Step =
    | ExecutableFolder   // osext.ExecutableFolder
    | Executable         // osext.Executable
    | StatExecutable     // os.Stat of the running executable
    | MakeTempDir        // ioutil.TempDir next to it
    | CreateNew          // os.Create of the new binary in the temporary directory
    | WriteNew           // writing the verified bytes
    | ChmodNew           // giving it the old executable's mode
    | CloseNew           // closing it
    | RenameAside        // executable -> executable.old
    | RenameIntoPlace    // new binary -> executable
    | RemoveBackup       // removing executable.old (not on Windows)
  {
    function Order(): nat
    {
      match this
      case ExecutableFolder => 0
      case Executable => 1
      case StatExecutable => 2
      case MakeTempDir => 3
      case CreateNew => 4
      case WriteNew => 5
      case ChmodNew => 6
      case CloseNew => 7
      case RenameAside => 8
      case RenameIntoPlace => 9
      case RemoveBackup => 10
    }
  }

  /** Where the running executable is, the random part ioutil.TempDir picks,
      and the steps the operating system refuses. */
  datatype Machine = Machine(exeDir: string, exe: string, tempSuffix: string, faults: set<Step>)

  function TempDir(m: Machine): string { Join(m.exeDir, TEMP_PREFIX + m.tempSuffix) }

  function NewBinary(m: Machine): string { Join(TempDir(m), BINARY_NAME) }

  function Backup(exe: string): string { exe + BACKUP_SUFFIX }

  /** The first step that fails, or None when the install completes. */
  function FailedStep(files: map<string, File>, dirs: set<string>, goos: string, m: Machine): Option<Step>
  {
    var f := m.faults;
    if ExecutableFolder in f then Some(ExecutableFolder)
    else if Executable in f then Some(Executable)
    else if StatExecutable in f || m.exe !in files then Some(StatExecutable)
    else if MakeTempDir in f || !Vacant(files, dirs, TempDir(m)) then Some(MakeTempDir)
    else FailedStepFromCreate(goos, m)
  }

  /** The files once the install has stopped at `failed` (None: completed)
      and the temporary directory has been removed. */
  function FilesAfter(files: map<string, File>, binary: seq<byte>, goos: string, m: Machine,
                      failed: Option<Step>): map<string, File>
  {
    var exe, backup := m.exe, Backup(m.exe);
    if exe !in files then files
    else
      var current := files[exe];
      var replacement := File(binary, current.mode);
      match failed
      case None =>
        if goos == WINDOWS then files[backup := current][exe := replacement]
        else (files - {backup})[exe := replacement]
      case Some(RemoveBackup) => files[backup := current][exe := replacement]
      case Some(RenameIntoPlace) => (files - {exe})[backup := current]
      case Some(_) => files
  }

  /** The install sequence of replaceCurrentVersion. Every return after the
      temporary directory exists first removes it, as the deferred
      os.RemoveAll does. */
  method ReplaceCurrentVersion(fs: Fs, binary: seq<byte>, goos: string, m: Machine)
    returns (failed: Option<Step>)
    modifies fs
    ensures failed == FailedStep(old(fs.files), old(fs.dirs), goos, m)
    ensures fs.files == FilesAfter(old(fs.files), binary, goos, m, failed)
    ensures fs.dirs == old(fs.dirs)
  {
    var faults := m.faults;
    if ExecutableFolder in faults {
      return Some(ExecutableFolder);
    }
    if Executable in faults {
      return Some(Executable);
    }
    if StatExecutable in faults || m.exe !in fs.files {
      return Some(StatExecutable);
    }
    ghost var files0, dirs0 := fs.files, fs.dirs;
    var current := fs.files[m.exe];
    var tempDir := TempDir(m);
    var ok := fs.Mkdir(tempDir, MakeTempDir in faults);
    if !ok {
      return Some(MakeTempDir);
    }
    assert dirs0 == set q | q in fs.dirs && q != tempDir && !Under(tempDir, q);
    var backup := Backup(m.exe);
    SuffixStaysOutside(tempDir, m.exe, BACKUP_SUFFIX);
    failed := WriteAndSwap(fs, binary, goos, m, current);
    ghost var swapped := fs.files;
    fs.RemoveAll(tempDir);
    ghost var target := FilesAfter(files0, binary, goos, m, failed);
    assert forall p :: p in target ==> p in files0 || p == backup || p == m.exe;
    WithoutTreeIs(swapped, target, tempDir);
  }

  /** The steps between making the temporary directory and the deferred
      clean-up. Afterwards the files agree with FilesAfter outside the
      temporary directory. */
  method WriteAndSwap(fs: Fs, binary: seq<byte>, goos: string, m: Machine, current: File)
    returns (failed: Option<Step>)
    requires m.exe in fs.files && fs.files[m.exe] == current
    requires !Under(TempDir(m), m.exe) && !Under(TempDir(m), Backup(m.exe))
    modifies fs
    ensures fs.dirs == old(fs.dirs)
    ensures failed == FailedStepFromCreate(goos, m)
    ensures SameOutside(fs.files, FilesAfter(old(fs.files), binary, goos, m, failed), TempDir(m))
  {
    ghost var files0 := fs.files;
    failed := StageNewBinary(fs, binary, m, current.mode);
    if failed.Some? {
      return;
    }
    ghost var staged := fs.files;
    failed := SwapIntoPlace(fs, binary, goos, m, current);
    FilesAfterOutside(files0, staged, binary, goos, m, failed);
    SameOutsideTransitive(fs.files, FilesAfter(staged, binary, goos, m, failed),
                          FilesAfter(files0, binary, goos, m, failed), TempDir(m));
  }

  /** Creating, writing, chmod-ing and closing the new binary inside the
      temporary directory; nothing outside it changes. */
  method StageNewBinary(fs: Fs, binary: seq<byte>, m: Machine, mode: Mode)
    returns (failed: Option<Step>)
    modifies fs
    ensures fs.dirs == old(fs.dirs)
    ensures SameOutside(fs.files, old(fs.files), TempDir(m))
    ensures failed ==
      if CreateNew in m.faults then Some(CreateNew)
      else if WriteNew in m.faults then Some(WriteNew)
      else if ChmodNew in m.faults then Some(ChmodNew)
      else if CloseNew in m.faults then Some(CloseNew)
      else None
    ensures failed.None? ==> NewBinary(m) in fs.files && fs.files[NewBinary(m)] == File(binary, mode)
  {
    var faults, newBin := m.faults, NewBinary(m);
    var ok := fs.Create(newBin, CreateNew in faults);
    if !ok {
      return Some(CreateNew);
    }
    ok := fs.Write(newBin, binary, WriteNew in faults);
    if !ok {
      return Some(WriteNew);
    }
    ok := fs.Chmod(newBin, mode, ChmodNew in faults);
    if !ok {
      return Some(ChmodNew);
    }
    if CloseNew in faults {
      return Some(CloseNew);
    }
    return None;
  }

  /** The stale-backup check, the two renames and, except on Windows, the
      removal of the backup. */
  method SwapIntoPlace(fs: Fs, binary: seq<byte>, goos: string, m: Machine, current: File)
    returns (failed: Option<Step>)
    requires m.exe in fs.files && fs.files[m.exe] == current
    requires NewBinary(m) in fs.files && fs.files[NewBinary(m)].data == binary
    requires fs.files[NewBinary(m)].mode == current.mode
    requires !Under(TempDir(m), m.exe) && !Under(TempDir(m), Backup(m.exe))
    modifies fs
    ensures fs.dirs == old(fs.dirs)
    ensures failed ==
      if RenameAside in m.faults then Some(RenameAside)
      else if RenameIntoPlace in m.faults then Some(RenameIntoPlace)
      else if goos != WINDOWS && RemoveBackup in m.faults then Some(RemoveBackup)
      else None
    ensures SameOutside(fs.files, FilesAfter(old(fs.files), binary, goos, m, failed), TempDir(m))
  {
    var faults, exe, backup, newBin := m.faults, m.exe, Backup(m.exe), NewBinary(m);
    ghost var td, f0 := TempDir(m), fs.files;
    // os.Remove runs only when os.Stat reports that no backup exists, so it
    // never removes a stale backup.
    var ok: bool;
    if backup !in fs.files {
      ok := fs.Remove(backup, false);
    }
    ok := fs.Rename(exe, backup, RenameAside in faults);
    if !ok {
      return Some(RenameAside);
    }
    assert fs.files == (f0 - {exe})[backup := current];
    ok := fs.Rename(newBin, exe, RenameIntoPlace in faults);
    if !ok {
      return Some(RenameIntoPlace);
    }
    ghost var swapped := f0[backup := current][exe := File(binary, current.mode)];
    assert SameOutside(fs.files, swapped, td);
    if goos != WINDOWS {
      SameOutsideAfterDelete(fs.files, swapped, td, backup);
      ok := fs.Remove(backup, RemoveBackup in faults);
      if !ok {
        return Some(RemoveBackup);
      }
      assert swapped - {backup} == (f0 - {backup})[exe := File(binary, current.mode)];
    }
    return None;
  }

  /** FilesAfter only looks at the executable and its backup, so it keeps
      two filesystems that agree outside the temporary directory alike. */
  lemma FilesAfterOutside(f: map<string, File>, g: map<string, File>, binary: seq<byte>,
                          goos: string, m: Machine, failed: Option<Step>)
    requires SameOutside(f, g, TempDir(m))
    requires !Under(TempDir(m), m.exe) && !Under(TempDir(m), Backup(m.exe))
    ensures SameOutside(FilesAfter(f, binary, goos, m, failed), FilesAfter(g, binary, goos, m, failed), TempDir(m))
  {
  }

  /** FailedStep once the temporary directory exists. */
  function FailedStepFromCreate(goos: string, m: Machine): Option<Step>
  {
    var f := m.faults;
    if CreateNew in f then Some(CreateNew)
    else if WriteNew in f then Some(WriteNew)
    else if ChmodNew in f then Some(ChmodNew)
    else if CloseNew in f then Some(CloseNew)
    else if RenameAside in f then Some(RenameAside)
    else if RenameIntoPlace in f then Some(RenameIntoPlace)
    else if goos != WINDOWS && RemoveBackup in f then Some(RemoveBackup)
    else None
  }
}

/** What the install outcome guarantees about the executable, its backup and
    the temporary directory. */
module InstallerProperties {
  import opened Wrappers
  import opened FileSystem
  import opened Installer

  /** A failure at any step up to and including moving the executable aside
      leaves every file as it was; in particular the executable keeps its
      bytes and mode. */
  lemma IntactUntilRenamedAside(files: map<string, File>, dirs: set<string>, binary: seq<byte>,
                                goos: string, m: Machine)
    requires FailedStep(files, dirs, goos, m).Some?
    requires FailedStep(files, dirs, goos, m).value.Order() <= RenameAside.Order()
    ensures FilesAfter(files, binary, goos, m, FailedStep(files, dirs, goos, m)) == files
  {
  }

  /** Once the executable has been moved aside, its old bytes and mode are
      at `<exe>.old`: when moving the new binary in fails (and the executable
      path is then empty), when removing the backup fails, and after a
      completed install on Windows. */
  lemma OldBinaryRecoverable(files: map<string, File>, dirs: set<string>, binary: seq<byte>,
                             goos: string, m: Machine)
    requires var failed := FailedStep(files, dirs, goos, m);
      failed == Some(RenameIntoPlace) || failed == Some(RemoveBackup) || (failed.None? && goos == WINDOWS)
    ensures m.exe in files
    ensures var after := FilesAfter(files, binary, goos, m, FailedStep(files, dirs, goos, m));
      && Backup(m.exe) in after && after[Backup(m.exe)] == files[m.exe]
      && (FailedStep(files, dirs, goos, m) == Some(RenameIntoPlace) <==> m.exe !in after)
  {
  }

  /** A completed install leaves the new bytes at the executable path with
      the old executable's mode; the backup remains exactly on Windows. A
      failed backup removal happens only off Windows, after the new binary is
      in place. */
  lemma NewBinaryInstalled(files: map<string, File>, dirs: set<string>, binary: seq<byte>,
                           goos: string, m: Machine)
    requires var failed := FailedStep(files, dirs, goos, m);
      failed.None? || failed == Some(RemoveBackup)
    ensures m.exe in files
    ensures var after := FilesAfter(files, binary, goos, m, FailedStep(files, dirs, goos, m));
      && m.exe in after && after[m.exe] == File(binary, files[m.exe].mode)
      && (FailedStep(files, dirs, goos, m).None? ==> (Backup(m.exe) in after <==> goos == WINDOWS))
      && (FailedStep(files, dirs, goos, m) == Some(RemoveBackup) ==> goos != WINDOWS)
  {
  }

  /** Only the executable path and its backup path can differ afterwards. */
  lemma NothingElseChanges(files: map<string, File>, binary: seq<byte>, goos: string, m: Machine,
                           failed: Option<Step>, p: string)
    requires p != m.exe && p != Backup(m.exe)
    ensures var after := FilesAfter(files, binary, goos, m, failed);
      (p in after <==> p in files) && (p in after ==> after[p] == files[p])
  {
  }

  /** The temporary directory leaves nothing behind: if it could be made,
      no file lies inside it afterwards. */
  lemma {:induction false} NoTemporaryFilesLeft(files: map<string, File>, dirs: set<string>, binary: seq<byte>,
                                                goos: string, m: Machine)
    requires Vacant(files, dirs, TempDir(m))
    ensures forall p :: p in FilesAfter(files, binary, goos, m, FailedStep(files, dirs, goos, m)) ==>
      !Under(TempDir(m), p)
  {
    if m.exe in files {
      SuffixStaysOutside(TempDir(m), m.exe, BACKUP_SUFFIX);
    }
  }

  /** A step fails only when the operating system refuses it, the executable
      cannot be found, or the temporary directory's name is taken; with none
      of these the install completes. */
  lemma FailsOnlyForACause(files: map<string, File>, dirs: set<string>, goos: string, m: Machine)
    ensures var failed := FailedStep(files, dirs, goos, m);
      failed.Some? ==>
        || failed.value in m.faults
        || (failed.value == StatExecutable && m.exe !in files)
        || (failed.value == MakeTempDir && !Vacant(files, dirs, TempDir(m)))
    ensures m.faults == {} && m.exe in files && Vacant(files, dirs, TempDir(m)) ==>
      FailedStep(files, dirs, goos, m).None?
  {
  }
}
