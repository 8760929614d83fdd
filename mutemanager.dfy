/** `mutemanager`: the set of muted chats, held in memory and mirrored to a file
    with one entry per line. Every change is written through a backup copy and a
    temporary file before it replaces the file, and a failed write is rolled back
    in memory. */
module MuteManager {
  import opened Wrappers
  import opened Text

  // ---------------------------------------------------------------------------
  // The file system the store works on

  /** The files the store touches, by path. */
  class Disk {
    var files: map<string, string>

    constructor (files: map<string, string>)
      ensures this.files == files
    {
      this.files := files;
    }
  }

  /** The steps of `createCopy` that can fail once the source is found; `io.Copy`
      can fail after it has written the first `copied` characters. */
  datatype CopyStep = OpenSource | CreateTarget | CopyData(copied: nat) | SyncTarget

  /** The steps on the temporary file; a failed buffered write surfaces at the flush. */
  datatype TempStep = CreateTemp | FlushTemp | SyncTemp | CloseTemp

  /** The one step of a save that fails, if any; every other step succeeds. */
  datatype SaveFault =
    | BackupFault(copy: CopyStep)
    | TempFault(temp: TempStep)
    | ReplaceFault(copy: CopyStep)

  /** Whether the fault, if any, is the given step. */
  predicate CopyFails(fault: Option<CopyStep>, step: CopyStep) {
    fault.Some? && fault.value == step
  }

  predicate SaveFails(fault: Option<SaveFault>, step: SaveFault) {
    fault.Some? && fault.value == step
  }

  /** Whether the data copy of the final copy over the file fails. */
  predicate ReplaceCopyFails(fault: Option<SaveFault>) {
    fault.Some? && fault.value.ReplaceFault? && fault.value.copy.CopyData?
  }

  /** The first `n` characters of `s`, or all of it when it is shorter. */
  function Prefix(s: string, n: nat): (p: string)
    ensures p <= s && |p| == if n < |s| then n else |s|
  {
    if n < |s| then s[..n] else s
  }

  predicate LoadFails(fault: Option<LoadFault>, step: LoadFault) {
    fault.Some? && fault.value == step
  }

  /** The one step of a load that fails, if any. */
  datatype LoadFault = OpenFails | ScanFails

  datatype IoError =
    | NotAbsolute
    | NotExist(path: string)
    | CopyFailed(copy: CopyStep)
    | TempFailed(temp: TempStep)
    | OpenFailed
    | ScanFailed
    | NoWorkingDirectory

  predicate IsAbs(path: string) {
    |path| > 0 && path[0] == '/'
  }

  /** `filepath.Abs`: a relative path is joined to the working directory, whose
      lookup can fail. */
  function AbsPath(path: string, cwd: Option<string>): (r: Option<string>)
    ensures r.Some? && cwd.Some? && IsAbs(cwd.value) ==> IsAbs(r.value)
    ensures r.None? <==> !IsAbs(path) && cwd.None?
  {
    if IsAbs(path) then Some(path)
    else if cwd.None? then None
    else Some(cwd.value + "/" + path)
  }

  function BackupPath(file: string): string {
    file + ".mmbak"
  }

  /** The name `os.CreateTemp` gives the temporary file, `tag` being its random part. */
  function TempPath(file: string, tag: string): string {
    file + "." + tag + ".mmtemp"
  }

  /** The file, its backup and its temporary file are three different paths. */
  lemma PathsDistinct(file: string, tag: string)
    ensures file != BackupPath(file) && file != TempPath(file, tag)
    ensures BackupPath(file) != TempPath(file, tag)
  {
    var b, t := BackupPath(file), TempPath(file, tag);
    assert |b| > |file| && |t| > |file|;
    assert b[|b| - 1] == 'k' && t[|t| - 1] == 'p';
  }

  /** The files after an operation, and its error. */
  datatype FsResult = FsResult(files: map<string, string>, err: Option<IoError>)

  /** `createCopy` as a function of the files before it: both paths must be
      absolute and the source must exist; creating the target truncates it. */
  function CopyOutcome(files: map<string, string>, src: string, dst: string, fault: Option<CopyStep>): (r: FsResult)
    ensures r.files - {dst} == files - {dst}
    ensures r.err.None? ==> src in files && dst in r.files && r.files[dst] == (if src == dst then "" else files[src])
  {
    if !IsAbs(src) || !IsAbs(dst) then FsResult(files, Some(NotAbsolute))
    else if src !in files then FsResult(files, Some(NotExist(src)))
    else if CopyFails(fault, OpenSource) || CopyFails(fault, CreateTarget) then FsResult(files, Some(CopyFailed(fault.value)))
    else
      var truncated := files[dst := ""];
      if fault.Some? && fault.value.CopyData? then
        FsResult(truncated[dst := Prefix(truncated[src], fault.value.copied)], Some(CopyFailed(fault.value)))
      else
        var copied := truncated[dst := truncated[src]];
        FsResult(copied, if CopyFails(fault, SyncTarget) then Some(CopyFailed(SyncTarget)) else None)
  }

  /** A copy succeeds exactly when both paths are absolute, the source exists and
      no step fails; then the target holds the source's contents. Whatever
      happens, no other path changes, and the target is either left as it was or
      holds a prefix of the source's contents (nothing when it is the source). */
  lemma CopyOutcomeSpec(files: map<string, string>, src: string, dst: string, fault: Option<CopyStep>)
    ensures var r := CopyOutcome(files, src, dst, fault);
      && (r.err.None? <==> IsAbs(src) && IsAbs(dst) && src in files && fault.None?)
      && (r.err.None? && src != dst ==> r.files == files[dst := files[src]])
      && (!IsAbs(src) || !IsAbs(dst) ==> r == FsResult(files, Some(NotAbsolute)))
      && (IsAbs(src) && IsAbs(dst) && src !in files ==> r == FsResult(files, Some(NotExist(src))))
      && r.files - {dst} == files - {dst}
      && (r.files == files ||
          (src in files && dst in r.files && r.files == files[dst := r.files[dst]] &&
           r.files[dst] <= (if src == dst then "" else files[src])))
  {
    if IsAbs(src) && IsAbs(dst) && src in files && fault.Some? {
      assert CopyOutcome(files, src, dst, fault).err == Some(CopyFailed(fault.value));
    }
  }

  /** The copy step a save fault names for the backup, or for the replacement. */
  function BackupStep(fault: Option<SaveFault>): Option<CopyStep> {
    if fault.Some? && fault.value.BackupFault? then Some(fault.value.copy) else None
  }

  function ReplaceStep(fault: Option<SaveFault>): Option<CopyStep> {
    if fault.Some? && fault.value.ReplaceFault? then Some(fault.value.copy) else None
  }

  /** A failure writing, syncing or closing the temporary file. */
  predicate TempStepFails(fault: Option<SaveFault>) {
    SaveFails(fault, TempFault(FlushTemp)) || SaveFails(fault, TempFault(SyncTemp)) || SaveFails(fault, TempFault(CloseTemp))
  }

  /** The second half of `saveFile` as a function of the files after the backup:
      create the temporary file, write, sync and close it, copy it over the file,
      and remove it. A temporary name that is already taken counts as a failed
      creation. */
  function ReplaceOutcome(files: map<string, string>, file: string, tag: string, content: string, fault: Option<SaveFault>): FsResult {
    var temp := TempPath(file, tag);
    if temp in files || SaveFails(fault, TempFault(CreateTemp)) then
      FsResult(files, Some(TempFailed(CreateTemp)))
    else if TempStepFails(fault) then
      FsResult(files, Some(TempFailed(fault.value.temp)))
    else
      var replace := CopyOutcome(files[temp := content], temp, file, ReplaceStep(fault));
      FsResult(replace.files - {temp}, replace.err)
  }

  /** `saveFile` as a function of the files before it and of what it writes: back up
      the file, then replace it through a temporary file. */
  function SaveOutcome(files: map<string, string>, file: string, tag: string, content: string, fault: Option<SaveFault>): (r: FsResult)
    ensures TempPath(file, tag) in r.files <==> TempPath(file, tag) in files
  {
    PathsDistinct(file, tag);
    var backup := CopyOutcome(files, file, BackupPath(file), BackupStep(fault));
    if backup.err.Some? then backup
    else ReplaceOutcome(backup.files, file, tag, content, fault)
  }

  /** A save succeeds exactly when the file is absolute and exists, the temporary
      name is free and no step fails; the backup then holds the previous contents
      and the file the new ones. */
  lemma SaveOutcomeSuccess(files: map<string, string>, file: string, tag: string, content: string, fault: Option<SaveFault>)
    ensures var r := SaveOutcome(files, file, tag, content, fault);
      && (r.err.None? <==> IsAbs(file) && file in files && TempPath(file, tag) !in files && fault.None?)
      && (r.err.None? ==> r.files == files[BackupPath(file) := files[file]][file := content])
  {
    var temp, bak := TempPath(file, tag), BackupPath(file);
    PathsDistinct(file, tag);
    CopyOutcomeSpec(files, file, bak, BackupStep(fault));
    var backup := CopyOutcome(files, file, bak, BackupStep(fault));
    if backup.err.None? && temp !in backup.files && !SaveFails(fault, TempFault(CreateTemp)) && !TempStepFails(fault) {
      assert IsAbs(file) && file in files;
      assert IsAbs(temp) by { assert temp[0] == file[0]; }
      var staged := backup.files[temp := content];
      CopyOutcomeSpec(staged, temp, file, ReplaceStep(fault));
      match fault {
        case Some(TempFault(step)) => assert step != CreateTemp;
        case _ =>
      }
      if fault.None? {
        var replaced := CopyOutcome(staged, temp, file, None).files;
        assert replaced == staged[file := content];
        assert replaced - {temp} == files[bak := files[file]][file := content];
      }
    }
  }

  /** A save without its file fails at once and changes nothing. */
  lemma SaveOutcomeMissingFile(files: map<string, string>, file: string, tag: string, content: string, fault: Option<SaveFault>)
    requires file !in files
    ensures var r := SaveOutcome(files, file, tag, content, fault);
      && r.files == files
      && r.err == Some(if IsAbs(file) then NotExist(file) else NotAbsolute)
  {
  }

  /** Only the final copy writes the file: a save failing at any other step leaves
      it untouched, while a copy that fails part-way in the final copy leaves a
      prefix of the new contents in it, and a failed sync the whole new contents. No path other than the file and its backup changes, and the
      temporary file never remains. */
  lemma SaveOutcomeFrame(files: map<string, string>, file: string, tag: string, content: string, fault: Option<SaveFault>)
    ensures var r := SaveOutcome(files, file, tag, content, fault);
      && (r.err.Some? && !(ReplaceCopyFails(fault) || SaveFails(fault, ReplaceFault(SyncTarget))) ==>
            (file in r.files <==> file in files) && (file in files ==> r.files[file] == files[file]))
      && (IsAbs(file) && file in files && TempPath(file, tag) !in files ==>
            && (ReplaceCopyFails(fault) ==>
                  && r.err == Some(CopyFailed(fault.value.copy)) && file in r.files
                  && r.files[file] == Prefix(content, fault.value.copy.copied) && r.files[file] <= content)
            && (SaveFails(fault, ReplaceFault(SyncTarget)) ==>
                  r.err == Some(CopyFailed(SyncTarget)) && file in r.files && r.files[file] == content))
      && r.files - {file, BackupPath(file)} == files - {file, BackupPath(file)}
  {
    var temp, bak := TempPath(file, tag), BackupPath(file);
    PathsDistinct(file, tag);
    CopyOutcomeSpec(files, file, bak, BackupStep(fault));
    var backup := CopyOutcome(files, file, bak, BackupStep(fault));
    if backup.err.None? && temp !in backup.files && !SaveFails(fault, TempFault(CreateTemp)) && !TempStepFails(fault) {
      assert IsAbs(file) && file in files;
      assert IsAbs(temp) by { assert temp[0] == file[0]; }
      var staged := backup.files[temp := content];
      CopyOutcomeSpec(staged, temp, file, ReplaceStep(fault));
      var replaced := CopyOutcome(staged, temp, file, ReplaceStep(fault)).files;
      assert replaced - {file} == staged - {file};
      if ReplaceCopyFails(fault) {
        assert ReplaceStep(fault) == Some(fault.value.copy);
        assert replaced == staged[file := Prefix(content, fault.value.copy.copied)];
      } else if SaveFails(fault, ReplaceFault(SyncTarget)) {
        assert ReplaceStep(fault) == Some(SyncTarget);
        assert replaced == staged[file := content];
      }
      assert replaced - {temp} - {file, bak} == files - {file, bak};
    }
  }

  // ---------------------------------------------------------------------------
  // The line format

  /** What `saveFile` writes: each entry followed by a newline. */
  function Join(keys: seq<string>): string {
    if keys == [] then "" else keys[0] + "\n" + Join(keys[1..])
  }

  lemma {:induction false} JoinAppend(keys: seq<string>, k: string)
    ensures Join(keys + [k]) == Join(keys) + k + "\n"
    decreases |keys|
  {
    if keys == [] {
      assert [k][1..] == [];
    } else {
      assert (keys + [k])[1..] == keys[1..] + [k];
      JoinAppend(keys[1..], k);
    }
  }

  /** `bufio.ScanLines` drops one carriage return before the newline. */
  function DropCR(line: string): string {
    if |line| > 0 && line[|line| - 1] == '\r' then line[..|line| - 1] else line
  }

  /** The lines a `bufio.Scanner` with `ScanLines` yields: split at each newline,
      one carriage return dropped from each, and a last line without a newline
      yielded when it is not empty. */
  function ScanLines(data: string): (lines: seq<string>)
    ensures forall i :: 0 <= i < |lines| ==> '\n' !in lines[i]
    decreases |data|
  {
    if data == [] then []
    else
      var i := IndexOf(data, '\n');
      if i == |data| then [DropCR(data)]
      else [DropCR(data[..i])] + ScanLines(data[i + 1..])
  }

  /** An entry that survives a save and a load unchanged. */
  predicate LineSafe(k: string) {
    '\n' !in k && (k == [] || k[|k| - 1] != '\r')
  }

  /** Reading back what was written gives the same entries in the same order. */
  lemma {:induction false} ScanJoin(keys: seq<string>)
    requires forall i :: 0 <= i < |keys| ==> LineSafe(keys[i])
    ensures ScanLines(Join(keys)) == keys
    decreases |keys|
  {
    if keys != [] {
      var data := Join(keys);
      var k := keys[0];
      assert data == k + "\n" + Join(keys[1..]);
      assert data[|k|] == '\n' && data[..|k|] == k;
      assert forall j :: 0 <= j < |k| ==> data[j] == k[j];
      assert IndexOf(data, '\n') == |k|;
      assert data[|k| + 1..] == Join(keys[1..]);
      ScanJoin(keys[1..]);
    }
  }

  /** An entry ending in a carriage return loses it on reload. */
  lemma CarriageReturnLost()
    ensures ScanLines(Join(["a\r"])) == ["a"]
  {
    var data := Join(["a\r"]);
    assert data == "a\r\n";
    assert IndexOf(data, '\n') == 2;
    assert data[..2] == "a\r" && DropCR("a\r") == "a";
    assert data[3..] == [];
  }

  /** An entry holding a newline comes back as two entries. */
  lemma NewlineSplits()
    ensures ScanLines(Join(["a\nb"])) == ["a", "b"]
  {
    var data := Join(["a\nb"]);
    assert data == "a\nb\n";
    assert IndexOf(data, '\n') == 1;
    assert data[..1] == "a" && DropCR("a") == "a";
    var rest := data[2..];
    assert rest == "b\n";
    assert IndexOf(rest, '\n') == 1;
    assert rest[..1] == "b" && DropCR("b") == "b";
    assert rest[2..] == [];
  }

  /** A sequence listing each element of a set exactly once. */
  predicate Enumerates(keys: seq<string>, s: set<string>) {
    && (forall i, j :: 0 <= i < j < |keys| ==> keys[i] != keys[j])
    && (forall k :: k in keys ==> k in s)
    && (forall k :: k in s ==> k in keys)
  }

  /** Some order of a set, as the map iteration of the source may produce. */
  ghost function SomeOrder(s: set<string>): (keys: seq<string>)
    ensures Enumerates(keys, s)
  {
    if s == {} then []
    else
      var k :| k in s;
      [k] + SomeOrder(s - {k})
  }

  /** The entries a file holds, as the store reads it back. */
  function Entries(data: string): set<string> {
    set k | k in ScanLines(data)
  }

  // ---------------------------------------------------------------------------
  // The store

  /** `createCopy`: copy `src` over `dst`, step by step. */
  method CreateCopy(fs: Disk, src: string, dst: string, fault: Option<CopyStep>) returns (err: Option<IoError>)
    modifies fs
    ensures FsResult(fs.files, err) == CopyOutcome(old(fs.files), src, dst, fault)
  {
    if !IsAbs(src) || !IsAbs(dst) {
      return Some(NotAbsolute);
    }
    if src !in fs.files {
      return Some(NotExist(src));
    }
    if CopyFails(fault, OpenSource) {
      return Some(CopyFailed(OpenSource));
    }
    if CopyFails(fault, CreateTarget) {
      return Some(CopyFailed(CreateTarget));
    }
    fs.files := fs.files[dst := ""];
    if fault.Some? && fault.value.CopyData? {
      fs.files := fs.files[dst := Prefix(fs.files[src], fault.value.copied)];
      return Some(CopyFailed(fault.value));
    }
    fs.files := fs.files[dst := fs.files[src]];
    if CopyFails(fault, SyncTarget) {
      return Some(CopyFailed(SyncTarget));
    }
    return None;
  }


  /** The scan loop of `loadFile`: each line read becomes a key, duplicates
      collapsing. */
  method CollectLines(tokens: seq<string>) returns (lines: map<string, bool>)
    ensures lines == map k | k in tokens :: true
  {
    lines := map[];
    for i := 0 to |tokens|
      invariant lines == map k | k in tokens[..i] :: true
    {
      assert tokens[..i + 1] == tokens[..i] + [tokens[i]];
      lines := lines[tokens[i] := true];
    }
    assert tokens[..|tokens|] == tokens;
  }

  class MuteManager {
    const file: string
    const fs: Disk
    var mutedEntries: map<string, bool>

    /** Every stored value is true: membership is the only information. */
    ghost predicate Valid()
      reads this
    {
      forall k :: k in mutedEntries ==> mutedEntries[k]
    }

    function Muted(): set<string>
      reads this
    {
      mutedEntries.Keys
    }

    /** The file holds exactly the muted entries. */
    ghost predicate Synced()
      reads this, fs
    {
      file in fs.files && Entries(fs.files[file]) == Muted()
    }

    constructor (file: string, fs: Disk)
      ensures this.file == file && this.fs == fs && mutedEntries == map[]
    {
      this.file := file;
      this.fs := fs;
      mutedEntries := map[];
    }

    /** `GetMute`: an entry is muted exactly when it is present; an absent entry is
        not muted. */
    function GetMute(entry: string): (state: bool)
      reads this
      ensures state <==> entry in Muted()
      ensures Valid() && state ==> mutedEntries[entry]
    {
      entry in mutedEntries
    }

    /** The write loop of `saveFile`: what the buffered writer holds once every
        entry has been written, in the map's order. */
    method WriteEntries() returns (buffer: string, ghost written: seq<string>)
      ensures Enumerates(written, Muted())
      ensures buffer == Join(written)
    {
      buffer := "";
      written := [];
      var rest := mutedEntries.Keys;
      while rest != {}
        invariant rest <= mutedEntries.Keys
        invariant forall i, j :: 0 <= i < j < |written| ==> written[i] != written[j]
        invariant forall k :: k in written <==> k in mutedEntries && k !in rest
        invariant buffer == Join(written)
        decreases |rest|
      {
        var k :| k in rest;
        JoinAppend(written, k);
        buffer := buffer + k + "\n";
        written := written + [k];
        rest := rest - {k};
      }
    }

    /** `saveFile`: the entries, in the map's order, one per line. */
    method SaveFile(fault: Option<SaveFault>, tempTag: string) returns (err: Option<IoError>, ghost written: seq<string>)
      modifies fs
      ensures Enumerates(written, Muted())
      ensures FsResult(fs.files, err) == SaveOutcome(old(fs.files), file, tempTag, Join(written), fault)
    {
      written := SomeOrder(Muted());
      err := CreateCopy(fs, file, BackupPath(file), BackupStep(fault));
      if err.Some? {
        return;
      }
      err, written := ReplaceViaTemp(fault, tempTag);
    }

    /** The second half of `saveFile`, once the backup is made. */
    method ReplaceViaTemp(fault: Option<SaveFault>, tempTag: string) returns (err: Option<IoError>, ghost written: seq<string>)
      modifies fs
      ensures Enumerates(written, Muted())
      ensures FsResult(fs.files, err) == ReplaceOutcome(old(fs.files), file, tempTag, Join(written), fault)
    {
      written := SomeOrder(Muted());
      var temp := TempPath(file, tempTag);
      if temp in fs.files || SaveFails(fault, TempFault(CreateTemp)) {
        return Some(TempFailed(CreateTemp)), written;
      }
      fs.files := fs.files[temp := ""];

      var buffer;
      buffer, written := WriteEntries();

      if SaveFails(fault, TempFault(FlushTemp)) {
        fs.files := fs.files - {temp};
        assert fs.files == old(fs.files);
        return Some(TempFailed(FlushTemp)), written;
      }
      fs.files := fs.files[temp := buffer];
      if SaveFails(fault, TempFault(SyncTemp)) || SaveFails(fault, TempFault(CloseTemp)) {
        fs.files := fs.files - {temp};
        assert fs.files == old(fs.files);
        return Some(TempFailed(fault.value.temp)), written;
      }
      assert fs.files == old(fs.files)[temp := Join(written)];
      err := CreateCopy(fs, temp, file, ReplaceStep(fault));
      fs.files := fs.files - {temp};
    }

    /** `SetMute`: a request for the current state changes nothing; otherwise the
        entry is added or removed, the file is saved, and a failed save is rolled
        back so that memory keeps the last saved set. */
    method SetMute(entry: string, state: bool, fault: Option<SaveFault>, tempTag: string)
      returns (changed: bool, err: Option<IoError>, ghost written: seq<string>)
      requires Valid()
      modifies this, fs
      ensures Valid()
      ensures old(GetMute(entry)) == state ==>
        !changed && err.None? && mutedEntries == old(mutedEntries) && fs.files == old(fs.files)
      ensures old(GetMute(entry)) != state ==>
        var target := if state then old(Muted()) + {entry} else old(Muted()) - {entry};
        && Enumerates(written, target)
        && FsResult(fs.files, err) == SaveOutcome(old(fs.files), file, tempTag, Join(written), fault)
        && changed == err.None?
        && Muted() == (if changed then target else old(Muted()))
      ensures !changed ==> mutedEntries == old(mutedEntries)
      ensures changed && (forall k :: k in Muted() ==> LineSafe(k)) ==> Synced()
      ensures old(Synced()) && !changed && !(ReplaceCopyFails(fault) || SaveFails(fault, ReplaceFault(SyncTarget))) ==>
        Synced()
    {
      if GetMute(entry) == state {
        return false, None, [];
      }
      ghost var before := mutedEntries;
      ghost var files := fs.files;
      if state {
        mutedEntries := mutedEntries[entry := true];
      } else {
        mutedEntries := mutedEntries - {entry};
      }
      err, written := SaveFile(fault, tempTag);
      SaveOutcomeFrame(files, file, tempTag, Join(written), fault);
      if err.Some? {
        if state {
          mutedEntries := mutedEntries - {entry};
        } else {
          mutedEntries := mutedEntries[entry := true];
        }
        assert mutedEntries == before;
        return false, err, written;
      }
      SaveOutcomeSuccess(files, file, tempTag, Join(written), fault);
      if forall k :: k in Muted() ==> LineSafe(k) {
        forall i | 0 <= i < |written|
          ensures LineSafe(written[i])
        {
          assert written[i] in Muted();
        }
        ScanJoin(written);
      }
      return true, None, written;
    }

    /** `loadFile`: read the file's lines and replace the set with them. A missing
        file is not recovered: the save attempted then fails at its first step,
        which opens that same file. */
    method LoadFile(fault: Option<LoadFault>) returns (err: Option<IoError>)
      modifies this, fs
      ensures fs.files == old(fs.files)
      ensures err.None? <==> file in old(fs.files) && fault.None?
      ensures file !in old(fs.files) ==> err == Some(if IsAbs(file) then NotExist(file) else NotAbsolute)
      ensures file in old(fs.files) && fault.Some? ==>
        err == Some(if fault.value == OpenFails then OpenFailed else ScanFailed)
      ensures err.None? ==> Valid() && Synced()
      ensures err.None? ==> mutedEntries == map k | k in ScanLines(fs.files[file]) :: true
      ensures err.Some? ==> mutedEntries == old(mutedEntries)
    {
      if file !in fs.files {
        ghost var written;
        SaveOutcomeMissingFile(fs.files, file, "", Join(SomeOrder(Muted())), None);
        err, written := SaveFile(None, "");
        SaveOutcomeMissingFile(old(fs.files), file, "", Join(written), None);
        return;
      }
      if LoadFails(fault, OpenFails) {
        return Some(OpenFailed);
      }
      var lines := CollectLines(ScanLines(fs.files[file]));
      if LoadFails(fault, ScanFails) {
        return Some(ScanFailed);
      }
      ReplaceEntries(lines);
      return None;
    }

    /** The end of `loadFile`: empty the map, then add every line read. */
    method ReplaceEntries(lines: map<string, bool>)
      modifies this
      ensures mutedEntries == map k | k in lines :: true
    {
      var stale := mutedEntries.Keys;
      while stale != {}
        invariant mutedEntries.Keys == stale
        decreases |stale|
      {
        var k :| k in stale;
        mutedEntries := mutedEntries - {k};
        stale := stale - {k};
      }
      assert mutedEntries == map[];
      var rest := lines.Keys;
      while rest != {}
        invariant rest <= lines.Keys
        invariant mutedEntries == map k | k in lines.Keys - rest :: true
        decreases |rest|
      {
        var k :| k in rest;
        mutedEntries := mutedEntries[k := true];
        rest := rest - {k};
      }
    }
    /** `New`: make the path absolute, then load the file. */
    static method New(file: string, cwd: Option<string>, fs: Disk, fault: Option<LoadFault>)
      returns (mm: MuteManager?, err: Option<IoError>)
      modifies fs
      ensures fs.files == old(fs.files)
      ensures mm != null <==> err.None?
      ensures AbsPath(file, cwd).None? ==> err == Some(NoWorkingDirectory)
      ensures AbsPath(file, cwd).Some? ==>
        var path := AbsPath(file, cwd).value;
        && (err.None? <==> path in fs.files && fault.None?)
        && (path !in fs.files ==> err == Some(if IsAbs(path) then NotExist(path) else NotAbsolute))
        && (path in fs.files && fault.Some? ==>
              err == Some(if fault.value == OpenFails then OpenFailed else ScanFailed))
      ensures mm != null ==>
        && fresh(mm) && mm.fs == fs && mm.file == AbsPath(file, cwd).value
        && mm.Valid() && mm.Synced()
    {
      var path := AbsPath(file, cwd);
      if path.None? {
        return null, Some(NoWorkingDirectory);
      }
      mm := new MuteManager(path.value, fs);
      err := mm.LoadFile(fault);
      if err.Some? {
        mm := null;
      }
    }
  }
}
