/** The log-directory allocator of experimentor/track_log.py. The filesystem
    is a map from directory path to its listing (files and subdirectories, by
    name); a path that is listed in its parent but is not a key of the map is
    a plain file. The UTC clock reading is an input. */
module TrackLogs {
  import opened Common
  import opened Strings
  import opened Timestamps

  type Dirs = map<string, seq<string>>

  /** The filesystem the allocator works on, shared by every TrackLog. */
  class FileSystem {
    var dirs: Dirs

    constructor (dirs: Dirs)
      ensures this.dirs == dirs
    {
      this.dirs := dirs;
    }
  }

  // ---------------------------------------------------------------------
  // Paths and listings.
  // ---------------------------------------------------------------------

  /** `os.path.join(a, b)` for a relative `b`: a separator is inserted unless
      `a` is empty or already ends with one. */
  function Join(a: string, b: string): (p: string)
    ensures |p| >= |a| + |b|
    ensures |b| > 0 ==> |p| > 0
  {
    if |a| == 0 || a[|a| - 1] == '/' then a + b else a + "/" + b
  }

  lemma JoinLonger(a: string, b: string)
    requires b != ""
    ensures Join(a, b) != a
  {
  }

  /** Joining onto the same directory names different paths for different
      names. */
  lemma JoinInjective(a: string, b: string, c: string)
    requires Join(a, b) == Join(a, c)
    ensures b == c
  {
    var prefix := if |a| == 0 || a[|a| - 1] == '/' then a else a + "/";
    assert Join(a, b) == prefix + b && Join(a, c) == prefix + c;
    assert b == (prefix + b)[|prefix|..];
    assert c == (prefix + c)[|prefix|..];
  }

  /** The directory that `os.path.join(root, name)` names: `root` itself for
      the empty title. */
  function SubdirKey(root: string, name: string): string
  {
    if name == "" then root else Join(root, name)
  }

  /** The listing with `x` added once (creating an existing file leaves one file). */
  function AddEntry(l: seq<string>, x: string): (r: seq<string>)
    ensures x in r && |r| > 0
    ensures forall y :: y in r <==> y in l || y == x
  {
    if x in l then l else l + [x]
  }

  /** The listing with `x` removed. */
  function RemoveEntry(l: seq<string>, x: string): (r: seq<string>)
    ensures forall y :: y in r <==> y in l && y != x
  {
    if |l| == 0 then []
    else (if l[0] == x then [] else [l[0]]) + RemoveEntry(l[1..], x)
  }

  lemma {:induction false} RemoveAdded(l: seq<string>, x: string)
    requires x !in l
    ensures RemoveEntry(l + [x], x) == l
  {
    if |l| == 0 {
      assert [] + [x] == [x];
    } else {
      assert (l + [x])[1..] == l[1..] + [x];
      RemoveAdded(l[1..], x);
      assert l == [l[0]] + l[1..];
    }
  }

  /** `root/name` exists and is not a directory. */
  predicate IsPlainFile(dirs: Dirs, root: string, name: string)
  {
    name != "" && root in dirs && name in dirs[root] && Join(root, name) !in dirs
  }

  /** `os.makedirs(os.path.join(root, name), exist_ok=True)` once it is known
      not to fail: the root and the subdirectory exist afterwards. */
  function MakeDirs(dirs: Dirs, root: string, name: string): (d: Dirs)
    ensures root in d && SubdirKey(root, name) in d
    ensures d[SubdirKey(root, name)] == if SubdirKey(root, name) in dirs then dirs[SubdirKey(root, name)] else []
    ensures forall p :: p in dirs ==> p in d
    ensures forall p :: p in d ==> p in dirs || p == root || p == SubdirKey(root, name)
    ensures forall p :: p in dirs && p != root && p != SubdirKey(root, name) ==> d[p] == dirs[p]
    ensures root in dirs ==> forall y :: y in dirs[root] ==> y in d[root]
    ensures name != "" ==> name in d[root]
    ensures var before := if root in dirs then dirs[root] else [];
            d[root] == if name == "" then before else AddEntry(before, name)
  {
    var d0 := if root in dirs then dirs else dirs[root := []];
    if name == "" then d0
    else
      var sub := Join(root, name);
      assert sub != root;
      var d1 := d0[root := AddEntry(d0[root], name)];
      if sub in d1 then d1 else d1[sub := []]
  }

  // ---------------------------------------------------------------------
  // The lock: init_dir and __del__.
  // ---------------------------------------------------------------------

  /** `root/lock` exists as a file: the lock a TrackLog holds, and what its
      `__del__` removes. */
  predicate LockHeld(dirs: Dirs, root: string)
  {
    root in dirs && "lock" in dirs[root] && Join(root, "lock") !in dirs
  }

  /** `init_dir`: create the root (`makedirs('')` fails), then, unless the
      lock is disabled, create `root/lock` with O_CREAT | O_EXCL. */
  function Lock(dirs: Dirs, root: string, disableLock: bool): (res: (Outcome, Dirs))
  {
    if root == "" then (Fail(OsError("")), dirs)
    else
      var d := if root in dirs then dirs else dirs[root := []];
      if disableLock then (Pass, d)
      else if "lock" in d[root] then (Fail(DirectoryBusy), d)
      else (Pass, d[root := d[root] + ["lock"]])
  }

  /** `__del__`: unless the lock is disabled, `os.remove(root/lock)`, which
      fails when the lock file is missing or is a directory. */
  function Unlock(dirs: Dirs, root: string, disableLock: bool): (res: (Outcome, Dirs))
    ensures !disableLock ==> (res.0 == Pass <==> LockHeld(dirs, root))
    ensures res.0.Fail? ==> res.1 == dirs
  {
    if disableLock then (Pass, dirs)
    else if root in dirs && "lock" in dirs[root] && Join(root, "lock") !in dirs then
      (Pass, dirs[root := RemoveEntry(dirs[root], "lock")])
    else (Fail(OsError(Join(root, "lock"))), dirs)
  }

  /** With the lock enabled, a successful `init_dir` creates `root/lock`,
      and it fails with "Another process is using the directory" exactly when
      that entry already exists; in both cases the root exists afterwards. */
  lemma LockCreates(dirs: Dirs, root: string)
    requires root != ""
    ensures root in Lock(dirs, root, false).1
    ensures Lock(dirs, root, false).0 == Fail(DirectoryBusy) <==> root in dirs && "lock" in dirs[root]
    ensures Lock(dirs, root, false).0 == Pass ==> "lock" in Lock(dirs, root, false).1[root]
    ensures Lock(dirs, root, false).0 == Pass && Join(root, "lock") !in dirs ==> LockHeld(Lock(dirs, root, false).1, root)
  {
    JoinLonger(root, "lock");
  }

  /** Once one TrackLog holds the lock, a second one on the same root fails
      and changes nothing. */
  lemma LockExcludes(dirs: Dirs, root: string)
    requires Lock(dirs, root, false).0 == Pass
    ensures Lock(Lock(dirs, root, false).1, root, false) == (Fail(DirectoryBusy), Lock(dirs, root, false).1)
  {
  }

  /** Taking the lock on an existing root and releasing it restores the
      filesystem. */
  lemma LockUnlock(dirs: Dirs, root: string)
    requires root in dirs && Join(root, "lock") !in dirs
    requires Lock(dirs, root, false).0 == Pass
    ensures Unlock(Lock(dirs, root, false).1, root, false) == (Pass, dirs)
  {
    var d := Lock(dirs, root, false).1;
    assert d == dirs[root := dirs[root] + ["lock"]];
    RemoveAdded(dirs[root], "lock");
    assert d[root := dirs[root]] == dirs;
  }

  /** With `disable_lock`, no lock entry is created or removed. */
  lemma DisabledLock(dirs: Dirs, root: string)
    ensures Unlock(dirs, root, true) == (Pass, dirs)
    ensures root != "" ==> Lock(dirs, root, true) == (Pass, if root in dirs then dirs else dirs[root := []])
    ensures root == "" ==> Lock(dirs, root, true) == (Fail(OsError("")), dirs)
  {
  }

  // ---------------------------------------------------------------------
  // add_log_file.
  // ---------------------------------------------------------------------

  /** `add_log_file(name, skip)` at clock reading `now`: the result (a path,
      None for a skip, or the OSError raised) and the filesystem afterwards. */
  function Allocate(dirs: Dirs, root: string, name: string, skip: bool, now: Timestamp): (res: (Result<Option<string>, Exception>, Dirs))
  {
    var sub := Join(root, name);
    if sub == "" then (Err(OsError("")), dirs)
    else if IsPlainFile(dirs, root, name) then (Err(OsError(sub)), dirs)
    else
      var d := MakeDirs(dirs, root, name);
      var key := SubdirKey(root, name);
      if skip && |d[key]| > 0 then (Ok(None), d)
      else
        var path := Join(sub, LogName(now));
        if path in d then (Err(OsError(path)), d)
        else (Ok(Some(path)), d[key := AddEntry(d[key], LogName(now))])
  }

  /** With `skip_if_exists`, `add_log_file` returns None exactly when the
      subdirectory already exists with some entry, and then adds no file. */
  lemma AllocateSkips(dirs: Dirs, root: string, name: string, now: Timestamp)
    ensures Allocate(dirs, root, name, true, now).0 == Ok(None) <==>
              Join(root, name) != "" && !IsPlainFile(dirs, root, name) &&
              SubdirKey(root, name) in dirs && |dirs[SubdirKey(root, name)]| > 0
    ensures Allocate(dirs, root, name, true, now).0 == Ok(None) ==>
              Allocate(dirs, root, name, true, now).1[SubdirKey(root, name)] == dirs[SubdirKey(root, name)]
  {
  }

  /** A returned path is `root/name/<stamp>.log`; afterwards the
      subdirectory exists, lists that file name, and the path is a file, not
      a directory. Only the root and the subdirectory change. */
  lemma AllocateCreates(dirs: Dirs, root: string, name: string, skip: bool, now: Timestamp)
    requires Allocate(dirs, root, name, skip, now).0.Ok?
    requires Allocate(dirs, root, name, skip, now).0.value.Some?
    ensures var (r, d) := Allocate(dirs, root, name, skip, now);
            r.value.value == Join(Join(root, name), LogName(now)) &&
            SubdirKey(root, name) in d && LogName(now) in d[SubdirKey(root, name)] &&
            r.value.value !in d &&
            forall p :: p in dirs && p != root && p != SubdirKey(root, name) ==> p in d && d[p] == dirs[p]
  {
  }

  /** `add_log_file` never takes anything away from the root's listing, and
      leaves a held lock in place: a title `lock` finds the lock file where
      its subdirectory would be and raises. */
  lemma AllocateKeepsRoot(dirs: Dirs, root: string, name: string, skip: bool, now: Timestamp)
    ensures var d := Allocate(dirs, root, name, skip, now).1;
            root in dirs ==> root in d && forall y :: y in dirs[root] ==> y in d[root]
    ensures LockHeld(dirs, root) ==> LockHeld(Allocate(dirs, root, name, skip, now).1, root)
  {
    if LockHeld(dirs, root) && name != "" && Join(root, name) == Join(root, "lock") {
      JoinInjective(root, name, "lock");
    }
    if name == "" {
      JoinLonger(root, "lock");
    }
  }

  /** After a path was returned for `name`, the next call with
      `skip_if_exists` skips it and leaves the filesystem alone. */
  lemma SkipAfterAllocate(dirs: Dirs, root: string, name: string, skip: bool, now: Timestamp, later: Timestamp)
    requires Allocate(dirs, root, name, skip, now).0.Ok?
    requires Allocate(dirs, root, name, skip, now).0.value.Some?
    ensures var d := Allocate(dirs, root, name, skip, now).1;
            Allocate(d, root, name, true, later) == (Ok(None), d)
  {
    var d := Allocate(dirs, root, name, skip, now).1;
    var key := SubdirKey(root, name);
    assert key in d && |d[key]| > 0;
    if name != "" {
      assert root in d && name in d[root];
      assert !IsPlainFile(d, root, name);
    }
    assert MakeDirs(d, root, name) == d;
  }

  /** Two calls within the same second that both create a file return the
      same path and leave a single file: the second one changes nothing. */
  lemma SameSecondSamePath(dirs: Dirs, root: string, name: string, skip: bool, now: Timestamp)
    requires Allocate(dirs, root, name, skip, now).0.Ok?
    requires Allocate(dirs, root, name, skip, now).0.value.Some?
    ensures var (r, d) := Allocate(dirs, root, name, skip, now);
            Allocate(d, root, name, false, now) == (r, d)
  {
    var d := Allocate(dirs, root, name, skip, now).1;
    var key := SubdirKey(root, name);
    AllocateCreates(dirs, root, name, skip, now);
    if name != "" {
      assert root in d && name in d[root];
      assert !IsPlainFile(d, root, name);
    }
    MakeDirsExisting(d, root, name);
    assert AddEntry(d[key], LogName(now)) == d[key];
    assert d[key := d[key]] == d;
  }

  /** Making directories that already exist changes nothing. */
  lemma MakeDirsExisting(dirs: Dirs, root: string, name: string)
    requires root in dirs && SubdirKey(root, name) in dirs
    requires name != "" ==> name in dirs[root]
    ensures MakeDirs(dirs, root, name) == dirs
  {
    if name != "" {
      assert AddEntry(dirs[root], name) == dirs[root];
      assert dirs[root := dirs[root]] == dirs;
    }
  }

  // ---------------------------------------------------------------------
  // The queries.
  // ---------------------------------------------------------------------

  /** `get_latest_track_log_file`: None when `root/name` is missing or
      empty, otherwise the path of the greatest name it lists; listing a
      plain file raises NotADirectoryError. */
  function GetLatest(dirs: Dirs, root: string, name: string): (r: Result<Option<string>, Exception>)
    ensures r == Ok(None) <==>
              Join(root, name) == "" || (!IsPlainFile(dirs, root, name) &&
              (SubdirKey(root, name) !in dirs || |dirs[SubdirKey(root, name)]| == 0))
    ensures r.Ok? && r.value.Some? ==>
              Join(root, name) != "" && SubdirKey(root, name) in dirs &&
              exists m :: m in dirs[SubdirKey(root, name)] && IsUpperBound(dirs[SubdirKey(root, name)], m) &&
                r.value.value == Join(Join(root, name), m)
    ensures Join(root, name) != "" && SubdirKey(root, name) in dirs && |dirs[SubdirKey(root, name)]| > 0 ==>
              r == Ok(Some(Join(Join(root, name), Greatest(dirs[SubdirKey(root, name)]))))
    ensures r.Err? <==> Join(root, name) != "" && IsPlainFile(dirs, root, name)
  {
    var sub := Join(root, name);
    var key := SubdirKey(root, name);
    if sub == "" then Ok(None)
    else if key in dirs then
      if |dirs[key]| == 0 then Ok(None)
      else Ok(Some(Join(sub, Greatest(dirs[key]))))
    else if IsPlainFile(dirs, root, name) then Err(OsError(sub))
    else Ok(None)
  }

  /** `open_latest_track_log_file` without the file object: the path it
      opens, or ValueError('No log file for the experiment'). */
  function OpenLatest(dirs: Dirs, root: string, name: string): (r: Result<string, Exception>)
    ensures r == Err(NoLogFile) <==> GetLatest(dirs, root, name) == Ok(None)
    ensures r.Ok? <==> GetLatest(dirs, root, name).Ok? && GetLatest(dirs, root, name).value.Some?
    ensures GetLatest(dirs, root, name).Ok? && GetLatest(dirs, root, name).value.Some? ==>
              r == Ok(GetLatest(dirs, root, name).value.value)
    ensures GetLatest(dirs, root, name).Err? ==> r == Err(GetLatest(dirs, root, name).error)
  {
    match GetLatest(dirs, root, name)
    case Err(e) => Err(e)
    case Ok(None) => Err(NoLogFile)
    case Ok(Some(path)) => Ok(path)
  }

  /** `has_track_log` as written: False when the root is missing, otherwise
      whether `root/name` lists anything; listing a missing subdirectory
      raises FileNotFoundError. */
  function HasTrackLog(dirs: Dirs, root: string, name: string): (r: Result<bool, Exception>)
    ensures root == "" || root !in dirs ==> r == Ok(false)
    ensures r == Ok(true) <==>
              root != "" && root in dirs && GetLatest(dirs, root, name).Ok? && GetLatest(dirs, root, name).value.Some?
    ensures root != "" && root in dirs && SubdirKey(root, name) !in dirs ==> r.Err?
    ensures root != "" && root in dirs && SubdirKey(root, name) in dirs ==>
              r == Ok(|dirs[SubdirKey(root, name)]| > 0)
  {
    if root == "" || root !in dirs then Ok(false)
    else if SubdirKey(root, name) in dirs then Ok(|dirs[SubdirKey(root, name)]| > 0)
    else Err(OsError(Join(root, name)))
  }

  /** The root exists, the title has never been logged, and yet
      `has_track_log` raises instead of answering False. */
  lemma HasTrackLogRaises()
    ensures HasTrackLog(map["log" := []], "log", "a_c_e") == Err(OsError("log/a_c_e"))
    ensures GetLatest(map["log" := []], "log", "a_c_e") == Ok(None)
  {
    assert Join("log", "a_c_e") == "log/a_c_e";
  }

  /** `has_track_log` with the existence test applied to the subdirectory, as
      its documentation describes. */
  function HasLog(dirs: Dirs, root: string, name: string): (r: Result<bool, Exception>)
  {
    var key := SubdirKey(root, name);
    if Join(root, name) == "" || key !in dirs then
      if IsPlainFile(dirs, root, name) then Err(OsError(Join(root, name))) else Ok(false)
    else Ok(|dirs[key]| > 0)
  }

  /** The corrected query answers exactly whether there is a latest log file,
      and raises only where `get_latest_track_log_file` raises. */
  lemma HasLogAgrees(dirs: Dirs, root: string, name: string)
    ensures HasLog(dirs, root, name).Ok? <==> GetLatest(dirs, root, name).Ok?
    ensures HasLog(dirs, root, name) == Ok(true) <==>
              GetLatest(dirs, root, name).Ok? && GetLatest(dirs, root, name).value.Some?
  {
  }

  /** After a file was created for `name`, and every name already in the
      subdirectory sorts before the new one, the latest log file is the one
      just created. */
  lemma LatestAfterAllocate(dirs: Dirs, root: string, name: string, skip: bool, now: Timestamp)
    requires Allocate(dirs, root, name, skip, now).0.Ok?
    requires Allocate(dirs, root, name, skip, now).0.value.Some?
    requires SubdirKey(root, name) in dirs ==>
               forall e :: e in dirs[SubdirKey(root, name)] ==> e == LogName(now) || Less(e, LogName(now))
    ensures var (r, d) := Allocate(dirs, root, name, skip, now);
            GetLatest(d, root, name) == Ok(r.value)
  {
    var d := Allocate(dirs, root, name, skip, now).1;
    var key := SubdirKey(root, name);
    AllocateCreates(dirs, root, name, skip, now);
    assert IsUpperBound(d[key], LogName(now));
    GreatestUnique(d[key], LogName(now));
  }

  /** The same with timestamps: if every file in the subdirectory was named
      by an earlier clock reading (or the same one), the new file is the
      latest. */
  lemma LatestAfterLaterAllocate(dirs: Dirs, root: string, name: string, skip: bool, now: Timestamp)
    requires Valid(now)
    requires Allocate(dirs, root, name, skip, now).0.Ok?
    requires Allocate(dirs, root, name, skip, now).0.value.Some?
    requires SubdirKey(root, name) in dirs ==>
               forall e :: e in dirs[SubdirKey(root, name)] ==>
                 exists t :: Valid(t) && e == LogName(t) && (t == now || Earlier(t, now))
    ensures var (r, d) := Allocate(dirs, root, name, skip, now);
            GetLatest(d, root, name) == Ok(r.value)
  {
    var key := SubdirKey(root, name);
    if key in dirs {
      forall e | e in dirs[key]
        ensures e == LogName(now) || Less(e, LogName(now))
      {
        var t :| Valid(t) && e == LogName(t) && (t == now || Earlier(t, now));
        LogNameOrder(t, now);
      }
    }
    LatestAfterAllocate(dirs, root, name, skip, now);
  }

  // ---------------------------------------------------------------------
  // The TrackLog object.
  // ---------------------------------------------------------------------

  class TrackLog {
    const root: string
    const disableLock: bool
    const fs: FileSystem

    /** Sets the fields; `Open` is the whole of `__init__`. */
    constructor (root: string, disableLock: bool, fs: FileSystem)
      ensures this.root == root && this.disableLock == disableLock && this.fs == fs
    {
      this.root := root;
      this.disableLock := disableLock;
      this.fs := fs;
    }

    /** `TrackLog(root_dir, disable_lock)`: construction runs `init_dir`,
        and an exception from it means no object. */
    static method Open(root: string, disableLock: bool, fs: FileSystem) returns (r: Result<TrackLog, Exception>)
      modifies fs
      ensures fs.dirs == Lock(old(fs.dirs), root, disableLock).1
      ensures r.Ok? <==> Lock(old(fs.dirs), root, disableLock).0 == Pass
      ensures r.Err? ==> r.error == Lock(old(fs.dirs), root, disableLock).0.error
      ensures r.Ok? ==> fresh(r.value) && r.value.root == root && r.value.disableLock == disableLock &&
                        r.value.fs == fs && root in fs.dirs
    {
      var t := new TrackLog(root, disableLock, fs);
      var o := t.InitDir();
      if o.Fail? {
        return Err(o.error);
      }
      return Ok(t);
    }

    /** `init_dir`. */
    method InitDir() returns (o: Outcome)
      modifies fs
      ensures (o, fs.dirs) == Lock(old(fs.dirs), root, disableLock)
    {
      if root == "" {
        return Fail(OsError(""));
      }
      if root !in fs.dirs {
        fs.dirs := fs.dirs[root := []];
      }
      if disableLock {
        return Pass;
      }
      if "lock" in fs.dirs[root] {
        return Fail(DirectoryBusy);
      }
      fs.dirs := fs.dirs[root := fs.dirs[root] + ["lock"]];
      return Pass;
    }

    /** `__del__`, called explicitly: release the lock. */
    method Close() returns (o: Outcome)
      modifies fs
      ensures (o, fs.dirs) == Unlock(old(fs.dirs), root, disableLock)
    {
      if disableLock {
        return Pass;
      }
      var lockFile := Join(root, "lock");
      if root in fs.dirs && "lock" in fs.dirs[root] && lockFile !in fs.dirs {
        fs.dirs := fs.dirs[root := RemoveEntry(fs.dirs[root], "lock")];
        return Pass;
      }
      return Fail(OsError(lockFile));
    }

    /** `add_log_file(name, skip_if_exists)` with the clock reading `now`. */
    method AddLogFile(name: string, skip: bool, now: Timestamp) returns (r: Result<Option<string>, Exception>)
      modifies fs
      ensures (r, fs.dirs) == Allocate(old(fs.dirs), root, name, skip, now)
    {
      var subdir := Join(root, name);
      if subdir == "" {
        return Err(OsError(""));
      }
      if IsPlainFile(fs.dirs, root, name) {
        return Err(OsError(subdir));
      }
      fs.dirs := MakeDirs(fs.dirs, root, name);
      var key := SubdirKey(root, name);
      if skip && |fs.dirs[key]| > 0 {
        return Ok(None);
      }
      var fileName := LogName(now);
      var filePath := Join(subdir, fileName);
      if filePath in fs.dirs {
        return Err(OsError(filePath));
      }
      fs.dirs := fs.dirs[key := AddEntry(fs.dirs[key], fileName)];
      return Ok(Some(filePath));
    }

    /** `open_latest_log_file(name)`. */
    function OpenLatestLogFile(name: string): (r: Result<string, Exception>)
      reads fs
      ensures r == Err(NoLogFile) <==> GetLatest(fs.dirs, root, name) == Ok(None)
      ensures r.Ok? ==> r == OpenLatest(fs.dirs, root, name)
      ensures GetLatest(fs.dirs, root, name).Ok? && GetLatest(fs.dirs, root, name).value.Some? ==>
                r == Ok(GetLatest(fs.dirs, root, name).value.value)
      ensures GetLatest(fs.dirs, root, name).Err? ==> r == Err(GetLatest(fs.dirs, root, name).error)
    {
      OpenLatest(fs.dirs, root, name)
    }
  }
}
