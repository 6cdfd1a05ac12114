/** Checkpoints and locks of a process's directory: the progress and data
    files a save writes (keeping the previous ones as backups), the choice
    a load makes between them and their backups, the fields a load
    restores, and the lock sentinel. The directory is a map from file name
    to what the file holds. */
module Checkpoint {
  import opened Wrappers
  import opened Terms
  import opened Lambdas

  /** The two checkpoint files of a process. */
  datatype Kind = Progress | Data

  /** A checkpoint file: `<p>_<kind>[_pose<NNN>].pkl.gz`, with `.BAK` for a
      backup. Only docking with a pose has the pose in its name. */
  datatype FileName = FileName(process: Process, kind: Kind, pose: Option<nat>, backup: bool)

  /** The lock sentinel: `.lock` or `.lock_pose<NNN>`. */
  datatype LockName = LockName(process: Process, pose: Option<nat>)

  /** The pose a file name carries: a docking pose of -1 or more stands
      for no pose. */
  function PoseTag(p: Process, pose: int): (r: Option<nat>)
    ensures r.Some? <==> p == Dock && pose > -1
    ensures r.Some? ==> r.value == pose
  {
    if p == Dock && pose > -1 then Some(pose) else None
  }

  function Primary(p: Process, kind: Kind, pose: int): FileName {
    FileName(p, kind, PoseTag(p, pose), false)
  }

  /** Adds `.BAK` to a name. */
  function Backup(f: FileName): FileName {
    f.(backup := true)
  }

  /** The random orientations of random docking: the translation and
      rotation counts and the drawn translations and rotations. */
  datatype Orient = Orient(nTrans: nat, maxTrans: nat, trans: seq<Conf>, nRot: nat, maxRot: nat, rots: seq<seq<real>>)

  /** The run settings saved with the progress, as name/value pairs. */
  type Settings = map<string, string>

  /** What a checkpoint file holds once unpickled: the progress triple or
      the data tuple. */
  datatype Record =
    | ProgressRecord(settings: Settings, protocol: seq<State>, cycle: int)
    | DataRecord(orient: Option<Orient>, startingPoses: Option<seq<Conf>>, replicas: Option<seq<Conf>>,
                 seeds: Option<seq<Conf>>, smartDarting: seq<Conf>, samples: Option<seq<seq<seq<Conf>>>>,
                 es: Option<seq<seq<Energies>>>)

  /** A file on disk: a readable pickle, an empty file or one that does not
      unpickle. */
  datatype Blob = Pickled(rec: Record) | EmptyFile | Unreadable

  type Files = map<FileName, Blob>

  /** Progress files hold progress records and data files data records. */
  predicate WellTyped(files: Files) {
    forall f :: f in files && files[f].Pickled? ==>
      (f.kind == Progress <==> files[f].rec.ProgressRecord?)
  }

  /** `_load_pkl_gz`: the record, or None for a missing, empty or
      unreadable file. */
  function LoadPklGz(files: Files, f: FileName): (r: Option<Record>)
    ensures r.Some? <==> f in files && files[f].Pickled?
    ensures r.Some? ==> r.value == files[f].rec
  {
    if f in files && files[f].Pickled? then Some(files[f].rec) else None
  }

  // ----- Saving -----

  /** One file written after renaming the existing one to its backup. */
  function SaveOne(files: Files, f: FileName, rec: Record): Files {
    (if f in files then files[Backup(f) := files[f]] else files)[f := Pickled(rec)]
  }

  /** Writing one file: it holds the new record, its backup what it held
      before, and no other file changes. */
  lemma SaveOneEffect(files: Files, f: FileName, rec: Record)
    requires !f.backup
    ensures var r := SaveOne(files, f, rec);
            && f in r && r[f] == Pickled(rec)
            && (f in files ==> Backup(f) in r && r[Backup(f)] == files[f])
            && (forall g :: g in files ==> g in r)
            && (forall g :: g != f && g != Backup(f) ==> (g in r <==> g in files))
            && (forall g :: g in files && g != f && g != Backup(f) ==> r[g] == files[g])
  {
  }

  /** The directory after writing the files of `writes` in order. */
  function Saved(files: Files, writes: seq<(FileName, Record)>): Files
    decreases |writes|
  {
    if writes == [] then files
    else var last := writes[|writes| - 1];
      SaveOne(Saved(files, writes[..|writes| - 1]), last.0, last.1)
  }

  /** The file a key is saved to, and what goes in it. */
  function Write(p: Process, pose: int, key: Kind, progress: Record, data: Record): (FileName, Record) {
    (Primary(p, key, pose), if key == Progress then progress else data)
  }

  function Writes(p: Process, pose: int, keys: seq<Kind>, progress: Record, data: Record): (r: seq<(FileName, Record)>)
    ensures |r| == |keys| && forall i :: 0 <= i < |keys| ==> r[i] == Write(p, pose, keys[i], progress, data)
  {
    seq(|keys|, i requires 0 <= i < |keys| => Write(p, pose, keys[i], progress, data))
  }

  /** Writing primaries with distinct names leaves each holding its new
      record and its backup holding what the primary held before (or, when
      there was no primary, the old backup); every other file is kept. */
  lemma {:induction false} SavedEffect(files: Files, writes: seq<(FileName, Record)>)
    requires forall i :: 0 <= i < |writes| ==> !writes[i].0.backup
    requires forall i, j :: 0 <= i < j < |writes| ==> writes[i].0 != writes[j].0
    ensures forall i :: 0 <= i < |writes| ==>
      writes[i].0 in Saved(files, writes) && Saved(files, writes)[writes[i].0] == Pickled(writes[i].1)
    ensures forall i :: 0 <= i < |writes| && writes[i].0 in files ==>
      Backup(writes[i].0) in Saved(files, writes) && Saved(files, writes)[Backup(writes[i].0)] == files[writes[i].0]
    ensures forall f :: f !in Saved(files, writes) ==> f !in files
    ensures forall f :: f in files && (forall i :: 0 <= i < |writes| ==> f != writes[i].0 && f != Backup(writes[i].0)) ==>
      f in Saved(files, writes) && Saved(files, writes)[f] == files[f]
    decreases |writes|
  {
    if writes != [] {
      var n := |writes| - 1;
      var init := writes[..n];
      var last := writes[n];
      SavedEffect(files, init);
      var mid := Saved(files, init);
      var s := Saved(files, writes);
      assert s == SaveOne(mid, last.0, last.1);
      SaveOneEffect(mid, last.0, last.1);
      assert forall i :: 0 <= i < n ==> init[i] == writes[i] && init[i].0 != last.0;
      forall i | 0 <= i < |writes|
        ensures writes[i].0 in s && s[writes[i].0] == Pickled(writes[i].1)
      {
        if i < n {
          assert Backup(last.0) != writes[i].0;
        }
      }
      if last.0 in files {
        assert last.0 in mid && mid[last.0] == files[last.0];
      }
      forall i | 0 <= i < |writes| && writes[i].0 in files
        ensures Backup(writes[i].0) in s && s[Backup(writes[i].0)] == files[writes[i].0]
      {
        if i < n {
          assert Backup(last.0) != Backup(writes[i].0);
        }
      }
      forall f | f !in s
        ensures f !in files
      {
        assert f !in mid;
      }
      forall f | f in files && (forall i :: 0 <= i < |writes| ==> f != writes[i].0 && f != Backup(writes[i].0))
        ensures f in s && s[f] == files[f]
      {
        assert f != last.0 && f != Backup(last.0);
        assert forall i :: 0 <= i < |init| ==> f != init[i].0 && f != Backup(init[i].0);
      }
    }
  }

  // ----- Loading -----

  /** The choice `_load` makes: the primary pair if both unpickle;
      otherwise the backup pair, where a missing backup progress leaves
      whatever backup data there is, and missing backup data drops the
      progress. `fallback` says whether the primaries were given up (and
      are then deleted). */
  datatype Choice = Choice(progress: Option<Record>, data: Option<Record>, fallback: bool)

  function Choose(files: Files, p: Process, pose: int): (r: Choice)
    ensures !r.fallback <==> (LoadPklGz(files, Primary(p, Progress, pose)).Some? &&
                              LoadPklGz(files, Primary(p, Data, pose)).Some?)
    ensures !r.fallback ==> r.progress == LoadPklGz(files, Primary(p, Progress, pose)) &&
                            r.data == LoadPklGz(files, Primary(p, Data, pose))
    ensures r.fallback ==> r.data == LoadPklGz(files, Backup(Primary(p, Data, pose)))
    ensures r.fallback ==> (r.progress.Some? <==>
      LoadPklGz(files, Backup(Primary(p, Progress, pose))).Some? && r.data.Some?)
    ensures r.progress.Some? ==> r.data.Some?
  {
    var prog := LoadPklGz(files, Primary(p, Progress, pose));
    var data := LoadPklGz(files, Primary(p, Data, pose));
    if prog.Some? && data.Some? then Choice(prog, data, false)
    else
      var prog' := LoadPklGz(files, Backup(Primary(p, Progress, pose)));
      var data' := LoadPklGz(files, Backup(Primary(p, Data, pose)));
      if prog'.None? then Choice(prog', data', true)
      else if data'.None? then Choice(None, data', true)
      else Choice(prog', data', true)
  }

  /** A process's fields after `_load`. `orient` is the random orientation
      it loaded, None when it left the previous one in place. */
  datatype Loaded = Loaded(
    protocol: seq<State>, cycle: int, startingPoses: Option<seq<Conf>>, replicas: Option<seq<Conf>>,
    seeds: Option<seq<Conf>>, smartDarting: seq<Conf>, samples: Option<seq<seq<seq<Conf>>>>,
    es: Option<seq<seq<Energies>>>, orient: Option<Orient>)

  /** `_clear`: an empty protocol, cycle 0 and no samples. */
  function Cleared(): Loaded {
    Loaded([], 0, None, None, None, [], None, None, None)
  }

  datatype LoadError = NoCycles | NoCrossedKey

  /** The fields `_load` restores from the chosen pair: the protocol and
      cycle from the progress, the samples and energies from the data,
      and then the cycle from the number of cycles the last state has
      samples for (0 without samples), reset to 0 unless the protocol
      ends in a crossed state. Empty samples fail, as `samples[-1]` does,
      and so does a last state without a `crossed` key. */
  function Restore(c: Choice, p: Process): (r: Result<(Option<Settings>, Loaded), LoadError>)
    requires c.progress.Some? ==> c.progress.value.ProgressRecord?
    requires c.data.Some? ==> c.data.value.DataRecord?
    ensures r.Ok? ==> (r.value.0.Some? <==> c.progress.Some?)
    ensures r.Ok? && c.progress.Some? ==>
      r.value.1.protocol == c.progress.value.protocol && r.value.0 == Some(c.progress.value.settings)
    ensures r.Ok? && c.progress.None? ==> r.value.1.protocol == []
    ensures r.Ok? && c.data.None? ==> r.value.1.samples.None? && r.value.1.es.None? && r.value.1.replicas.None?
    ensures r.Ok? && c.data.Some? ==>
      r.value.1.samples == c.data.value.samples && r.value.1.es == c.data.value.es &&
      r.value.1.replicas == c.data.value.replicas
    ensures r.Ok? && c.data.Some? ==>
      r.value.1.startingPoses == c.data.value.startingPoses && r.value.1.seeds == c.data.value.seeds &&
      r.value.1.smartDarting == c.data.value.smartDarting &&
      r.value.1.orient == (if p == Dock then c.data.value.orient else None)
    ensures r.Ok? && c.data.None? ==>
      r.value.1.startingPoses.None? && r.value.1.seeds.None? && r.value.1.smartDarting == [] && r.value.1.orient.None?
    ensures r.Ok? ==> (r.value.1.cycle != 0 ==>
      |r.value.1.protocol| > 0 && IsCrossed(r.value.1.protocol[|r.value.1.protocol| - 1]))
    ensures (r.Ok? && c.data.Some? && c.data.value.samples.Some? && |c.data.value.samples.value| > 0 &&
             r.value.1.cycle != 0) ==>
      r.value.1.cycle == |c.data.value.samples.value[|c.data.value.samples.value| - 1]|
    ensures r == Err(NoCycles) <==> c.data.Some? && c.data.value.samples == Some([])
    ensures r.Ok? && (r.value.1.protocol == [] || !IsCrossed(r.value.1.protocol[|r.value.1.protocol| - 1])) ==>
      r.value.1.cycle == 0
    ensures r.Ok? && c.progress.Some? && |c.progress.value.protocol| > 0 &&
            IsCrossed(c.progress.value.protocol[|c.progress.value.protocol| - 1]) ==>
      r.value.1.cycle ==
        if c.data.None? then c.progress.value.cycle
        else if c.data.value.samples.None? then 0
        else |c.data.value.samples.value[|c.data.value.samples.value| - 1]|
    ensures r == Err(NoCrossedKey) <==>
      !(c.data.Some? && c.data.value.samples == Some([])) && c.progress.Some? &&
      |c.progress.value.protocol| > 0 && c.progress.value.protocol[|c.progress.value.protocol| - 1].crossed.None?
  {
    var settings := if c.progress.Some? then Some(c.progress.value.settings) else None;
    var s0 := Cleared();
    var s1 := if c.progress.Some? then s0.(protocol := c.progress.value.protocol, cycle := c.progress.value.cycle) else s0;
    if c.data.Some? && c.data.value.samples == Some([]) then Err(NoCycles)
    else
      var s2 :=
        if c.data.None? then s1
        else
          var d := c.data.value;
          s1.(orient := if p == Dock then d.orient else s1.orient,
              startingPoses := d.startingPoses, replicas := d.replicas, seeds := d.seeds,
              smartDarting := d.smartDarting, samples := d.samples, es := d.es,
              cycle := if d.samples.Some? then |d.samples.value[|d.samples.value| - 1]| else 0);
      if s2.protocol == [] then Ok((settings, s2.(cycle := 0)))
      else
        var last := s2.protocol[|s2.protocol| - 1];
        if last.crossed.None? then Err(NoCrossedKey)
        else if !last.crossed.value then Ok((settings, s2.(cycle := 0)))
        else Ok((settings, s2))
  }

  /** After a save of both keys, a load takes the saved pair and restores
      the saved protocol and data; the cycle reset keeps, through the
      crossed flag, only a finished protocol's cycle count. */
  lemma SaveThenLoad(files: Files, p: Process, pose: int, progress: Record, data: Record)
    requires progress.ProgressRecord? && data.DataRecord?
    ensures var after := Saved(files, Writes(p, pose, [Progress, Data], progress, data));
      Choose(after, p, pose) == Choice(Some(progress), Some(data), false)
  {
    var ws := Writes(p, pose, [Progress, Data], progress, data);
    SavedEffect(files, ws);
    assert ws[0].0 == Primary(p, Progress, pose) && ws[1].0 == Primary(p, Data, pose);
  }

  /** A save keeps the directory well typed. */
  lemma SaveWellTyped(files: Files, p: Process, pose: int, keys: seq<Kind>, progress: Record, data: Record)
    requires WellTyped(files) && progress.ProgressRecord? && data.DataRecord?
    ensures WellTyped(Saved(files, Writes(p, pose, keys, progress, data)))
    decreases |keys|
  {
    var ws := Writes(p, pose, keys, progress, data);
    if keys != [] {
      var init := keys[..|keys| - 1];
      SaveWellTyped(files, p, pose, init, progress, data);
      assert Writes(p, pose, init, progress, data) == ws[..|ws| - 1];
    }
  }

  /** If a primary is unreadable but both backups are, the load falls back
      to the backup pair. */
  lemma BackupFallback(files: Files, p: Process, pose: int)
    requires LoadPklGz(files, Primary(p, Progress, pose)).None? || LoadPklGz(files, Primary(p, Data, pose)).None?
    requires LoadPklGz(files, Backup(Primary(p, Progress, pose))).Some?
    requires LoadPklGz(files, Backup(Primary(p, Data, pose))).Some?
    ensures Choose(files, p, pose) ==
      Choice(LoadPklGz(files, Backup(Primary(p, Progress, pose))), LoadPklGz(files, Backup(Primary(p, Data, pose))), true)
  {
  }

  /** The previous save survives a later one as the backup: after two
      saves, the backups hold the first save's records. */
  lemma SecondSaveBacksUpFirst(files: Files, p: Process, pose: int, prog1: Record, data1: Record, prog2: Record, data2: Record)
    requires prog1.ProgressRecord? && data1.DataRecord?
    ensures var once := Saved(files, Writes(p, pose, [Progress, Data], prog1, data1));
      var twice := Saved(once, Writes(p, pose, [Progress, Data], prog2, data2));
      LoadPklGz(twice, Backup(Primary(p, Progress, pose))) == Some(prog1) &&
      LoadPklGz(twice, Backup(Primary(p, Data, pose))) == Some(data1)
  {
    var ws1 := Writes(p, pose, [Progress, Data], prog1, data1);
    var ws2 := Writes(p, pose, [Progress, Data], prog2, data2);
    SavedEffect(files, ws1);
    var once := Saved(files, ws1);
    assert ws1[0].0 == Primary(p, Progress, pose) && ws1[1].0 == Primary(p, Data, pose);
    assert ws2[0].0 == Primary(p, Progress, pose) && ws2[1].0 == Primary(p, Data, pose);
    SavedEffect(once, ws2);
  }

  /** The directory of one run: the checkpoint files and the locks held. */
  class Directory {
    var files: Files
    var locks: set<LockName>

    constructor (files0: Files)
      ensures files == files0 && locks == {}
    {
      files, locks := files0, {};
    }

    /** `_set_lock`: fails when the lock is already held, else takes it. */
    method SetLock(p: Process, pose: int) returns (r: Result<(), LockName>)
      modifies this
      ensures files == old(files)
      ensures r.Err? <==> LockName(p, PoseTag(p, pose)) in old(locks)
      ensures locks == old(locks) + {LockName(p, PoseTag(p, pose))}
    {
      var lock := LockName(p, PoseTag(p, pose));
      if lock in locks {
        return Err(lock);
      }
      locks := locks + {lock};
      r := Ok(());
    }

    /** `_clear_lock`: releases the lock if it is held. */
    method ClearLock(p: Process, pose: int)
      modifies this
      ensures files == old(files)
      ensures locks == old(locks) - {LockName(p, PoseTag(p, pose))}
    {
      var lock := LockName(p, PoseTag(p, pose));
      if lock in locks {
        locks := locks - {lock};
      }
    }

    /** `_save`: for each key in turn, renames the existing file to its
        backup and writes the key's record. */
    method Save(p: Process, pose: int, keys: seq<Kind>, progress: Record, data: Record)
      modifies this
      ensures locks == old(locks)
      ensures files == Saved(old(files), Writes(p, pose, keys, progress, data))
    {
      ghost var ws := Writes(p, pose, keys, progress, data);
      for i := 0 to |keys|
        invariant files == Saved(old(files), ws[..i]) && locks == old(locks)
      {
        var (f, rec) := Write(p, pose, keys[i], progress, data);
        if f in files {
          files := files[Backup(f) := files[f]];
        }
        files := files[f := Pickled(rec)];
        assert ws[..i + 1][..i] == ws[..i];
      }
      assert ws[..|keys|] == ws;
    }

    /** `_load`: chooses the pair to load, deletes both primaries when it
        falls back to the backups, and restores the process's fields. */
    method Load(p: Process, pose: int) returns (r: Result<(Option<Settings>, Loaded), LoadError>)
      requires WellTyped(files)
      modifies this
      ensures locks == old(locks)
      ensures var c := Choose(old(files), p, pose);
        && r == Restore(c, p)
        && files == if c.fallback then old(files) - {Primary(p, Progress, pose), Primary(p, Data, pose)} else old(files)
      ensures WellTyped(files)
    {
      var c := Choose(files, p, pose);
      assert c.progress.Some? ==> c.progress.value.ProgressRecord?;
      if c.fallback {
        files := files - {Primary(p, Progress, pose), Primary(p, Data, pose)};
      }
      r := Restore(c, p);
    }
  }
}
