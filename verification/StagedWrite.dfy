/** The staged write of `SSHExecutor.write` (executor/ssh.py, with `_staging`, `_stage`, `_upload`,
    `_discard` and the placing programs): content is staged beside its target, checked there, and moved into
    place. Every call is one tick; at any of them the server may fail, the link may go, the storage may keep
    other bytes than were sent, and a program may die. */
module StagedWrite {
  import opened Bytes
  import opened Paths
  import opened Wrappers
  import Crc
  import Framing
  import Shell

  type Mode = bv16

  datatype Node = File(bytes: Bytes, mode: Mode) | Directory | Link | Special(mode: Mode)

  type Disk = map<string, Node>

  const SET_ID: Mode := 3072        // 0o6000
  const PERMISSIONS: Mode := 4095   // 0o7777
  const PRIVATE: Mode := 384        // 0o600
  const PLAIN: Mode := 438          // 0o666
  const EXECUTE: Mode := 73         // 0o111

  type Errno = nat
  const ENOENT: Errno := 2
  const EACCES: Errno := 13
  const EPERM: Errno := 1
  const EISDIR: Errno := 21
  const SHORT: Errno := 1001
  const LOST: Errno := 1002

  /** What becomes of each call: whether the link is up, the server's own failure, whether a call whose reply
      was lost took effect, and what the storage keeps of the bytes written; whether a command starts, and
      the tick a program dies at; what `normalize` answers, and whether the user may write the target. */
  datatype Weather = Weather(up: nat -> bool, failure: nat -> Option<Errno>, landed: nat -> bool,
                             stored: (nat, Bytes) -> Bytes, connects: bool, starts: nat -> bool, dies: nat -> bool,
                             normal: string -> Option<string>, writable: bool, umask: Mode) {
    predicate Does(t: nat) { if up(t) then failure(t).None? else landed(t) }

    function Reply(t: nat): Option<Errno> { if up(t) then failure(t) else Some(LOST) }
  }

  // ----- where a write lands -----

  datatype Landing = Landing(target: string, mode: Option<Mode>, through: bool) | NoLanding(errno: Errno)

  function IsDirectory(disk: Disk, path: string): bool {
    path in disk && disk[path].Directory?
  }

  function OrRoot(path: string): string { if path == "" then "/" else path }
  function OrHere(path: string): string { if path == "" then "." else path }

  /** What a path that is no link, or that a link was followed to, lands as. */
  function LandsAt(disk: Disk, path: string): Landing {
    if path !in disk then Landing(path, None, false)
    else
      match disk[path]
      case Directory => NoLanding(EISDIR)
      case Link => NoLanding(ENOENT)
      case File(_, mode) => Landing(path, Some(mode & PERMISSIONS & !SET_ID), false)
      case Special(mode) => Landing(path, Some(mode & PERMISSIONS & !SET_ID), true)
  }

  /** `_staging`, the server answering */
  function Staging(disk: Disk, normal: string -> Option<string>, path: string): Landing {
    if path !in disk then Landing(path, None, false)
    else if !disk[path].Link? then LandsAt(disk, path)
    else
      match normal(path)
      case None => NoLanding(ENOENT)
      case Some(named) =>
        if !IsDirectory(disk, OrRoot(Dirname(named))) then NoLanding(ENOENT) else LandsAt(disk, named)
  }

  /** An overwritten file keeps its permission bits but setuid and setgid, only a file or nothing is
      placed by a rename, and nothing that exists is taken for missing. */
  lemma LandingIs(disk: Disk, normal: string -> Option<string>, path: string)
    ensures var landing := Staging(disk, normal, path);
            landing.Landing? ==>
              && (landing.mode.None? <==> landing.target !in disk)
              && (landing.through <==> landing.target in disk && disk[landing.target].Special?)
              && (landing.target in disk ==>
                    && (!landing.through ==> disk[landing.target].File?)
                    && landing.mode.value & SET_ID == 0
                    && landing.mode.value | (disk[landing.target].mode & SET_ID) == disk[landing.target].mode & PERMISSIONS)
  {
  }

  /** A write may place its file here: nothing is there, or a file, or a special file. */
  predicate Takes(disk: Disk, path: string) {
    path in disk ==> disk[path].File? || disk[path].Special?
  }

  /** The path that a write of `path` lands at: itself, or what the server resolves a link to, in a directory
      that exists. */
  predicate Lands(disk: Disk, normal: string -> Option<string>, path: string, target: string) {
    && Takes(disk, target)
    && (if path in disk && disk[path].Link? then
          && normal(path) == Some(target)
          && var parent := if Dirname(target) == "" then "/" else Dirname(target);
             parent in disk && disk[parent].Directory?
        else target == path)
  }

  /** A directory is what the path names, by itself or through a link. */
  predicate NamesDirectory(disk: Disk, normal: string -> Option<string>, path: string) {
    path in disk && if disk[path].Link? then normal(path).Some? && IsDirectory(disk, normal(path).value) else disk[path].Directory?
  }

  /** A write lands exactly where it may, and at that path; what does not land is a directory, or is refused as a
      missing file. */
  lemma LandsExactly(disk: Disk, normal: string -> Option<string>, path: string)
    ensures forall target :: Lands(disk, normal, path, target) ==>
              Staging(disk, normal, path).Landing? && Staging(disk, normal, path).target == target
    ensures Staging(disk, normal, path).Landing? ==> Lands(disk, normal, path, Staging(disk, normal, path).target)
    ensures Staging(disk, normal, path).NoLanding? ==>
              Staging(disk, normal, path).errno in {EISDIR, ENOENT}
              && (Staging(disk, normal, path).errno == EISDIR ==> NamesDirectory(disk, normal, path))
    ensures path in disk && disk[path].Directory? ==> Staging(disk, normal, path) == NoLanding(EISDIR)
  {
    hide Dirname;
  }

  // ----- the staging area -----

  datatype Area = Area(directory: string, staged: string, expected: string) {
    function Paths(): set<string> { {directory, staged, expected} }
  }

  /** `_stage` and the checksum's path; `name` is the prefix and a token just drawn. */
  function AreaIn(near: string, name: string): Area {
    var directory := Join(near, name);
    Area(directory, Join(directory, "content"), Join(directory, "expected"))
  }

  /** The area in the target's own directory. */
  function Beside(target: string, name: string): Area {
    AreaIn(if |Dirname(target)| > 0 then Dirname(target) else ".", name)
  }

  predicate EndsWith(path: string, name: string) {
    |name| <= |path| && path[|path| - |name|..] == name
  }

  /** What a directory's files hang on exists. */
  predicate Rooted(disk: Disk) {
    forall p :: p in disk ==> Dirname(p) == "" || Dirname(p) in disk
  }

  /** The two disks differ at `places` alone. */
  predicate Kept(a: Disk, b: Disk, places: set<string>) {
    && (forall p :: p in a && p !in places ==> p in b && b[p] == a[p])
    && (forall p :: p in b && p !in places ==> p in a)
  }

  lemma JoinedName(near: string, name: string)
    requires Name(name)
    ensures |Join(near, name)| > |near| && !EndsInSlash(Join(near, name)) && EndsWith(Join(near, name), name)
    ensures near <= Join(near, name) && Join(near, name) != ""
  {
  }

  lemma StrippedIsShorter(s: string)
    ensures |Stripped(s)| <= |s|
  {
  }

  lemma UpToSlashIsShorter(s: string)
    ensures |UpToSlash(s)| <= |s|
  {
  }

  /** What is joined to a directory lies in it. */
  lemma JoinedLiesIn(directory: string, name: string)
    requires Name(name) && directory != "" && !EndsInSlash(directory)
    ensures Dirname(Join(directory, name)) == directory
  {
    var head := directory + "/";
    UpToSlashOf(head, name);
    assert Join(directory, name) == head + name;
    assert head[|directory| - 1] == directory[|directory| - 1] != '/';
    assert head[..|head| - 1] == directory;
    assert Stripped(head) == Stripped(directory) == directory;
  }

  lemma AreaPaths(near: string, name: string)
    requires Name(name)
    ensures var area := AreaIn(near, name);
            && |area.staged| == |area.directory| + 8 && |area.expected| == |area.directory| + 9
            && |area.directory| > |near| && EndsWith(area.directory, name)
            && Dirname(area.staged) == area.directory == Dirname(area.expected) && area.directory != ""
  {
    hide Dirname, EndsWith;
    var directory := Join(near, name);
    JoinedName(near, name);
    assert Name("content") && Name("expected");
    JoinedLiesIn(directory, "content");
    JoinedLiesIn(directory, "expected");
  }

  /** The area of a directory not yet there is not there either, and is apart from the target. */
  lemma AreaIsApart(disk: Disk, near: string, name: string, target: string)
    requires Rooted(disk) && Name(name) && Join(near, name) !in disk
    requires target in disk || near == OrHere(Dirname(target))
    requires !EndsWith(target, name)
    ensures var area := AreaIn(near, name);
            && area.staged != area.expected && area.directory != area.staged && area.directory != area.expected
            && target !in area.Paths() && (forall p :: p in area.Paths() ==> p !in disk)
            && Dirname(area.staged) == area.directory == Dirname(area.expected)
            && (forall p :: p in disk || p == target ==> Dirname(p) != area.directory)
  {
    hide Dirname, EndsWith, Join;
    AreaPaths(near, name);
  }

  lemma {:induction false} UpToSlashEnds(s: string)
    ensures UpToSlash(s) == [] || EndsInSlash(UpToSlash(s))
  {
    if s != [] && !EndsInSlash(s) {
      UpToSlashEnds(s[..|s| - 1]);
    }
  }

  /** A directory does not lie in itself. */
  lemma NotInItself(directory: string)
    requires directory != "" && !EndsInSlash(directory)
    ensures Dirname(directory) != directory
  {
    UpToSlashEnds(directory);
    UpToSlashIsShorter(directory);
    StrippedIsShorter(UpToSlash(directory));
    UpToSlashIsPrefix(directory);
  }

  lemma {:induction false} UpToSlashIsPrefix(s: string)
    ensures UpToSlash(s) <= s
  {
    if s != [] && !EndsInSlash(s) {
      UpToSlashIsPrefix(s[..|s| - 1]);
    }
  }

  // ----- what a write does -----

  datatype Script = Place(check: bool) | Append | Through

  function ScriptOf(append: bool, through: bool, mode: Option<Mode>): Script {
    if append then Append else if through then Through else Place(mode.Some?)
  }

  /** What a write set out to do, and what its program found staged. */
  datatype Job = Job(before: Disk, area: Area, target: string, mode: Option<Mode>, script: Script, executable: bool,
                     umask: Mode, content: Bytes, sums: Bytes) {
    /** The mode `chmod` gives the staged file: the target's own, or `=rw` under the umask. */
    function Given(): Mode { if mode.Some? then mode.value else PLAIN & !umask }

    /** What is poured into the target, if the file is not moved there. */
    function Poured(): Bytes { (if script.Append? then FileAt(before, target) else []) + content }

    /** The mode of what is poured into: its own, or a new file's. */
    function PouredMode(): Mode {
      if target in before && before[target].File? then before[target].mode else PLAIN & !umask
    }

    function PouredFinal(): Mode { if executable then PouredMode() | (EXECUTE & !umask) else PouredMode() }

    /** The mode in the end. */
    function Final(): Mode { if executable then Given() | (EXECUTE & !umask) else Given() }
  }

  /** `VERIFY`: the checksum of what is staged is the one staged beside it. */
  predicate Verified(content: Bytes, sums: Bytes) {
    Ascii(Crc.PosixCksum(content)) == Shell.Captured(sums)
  }

  /** What the target may have come to, once the content was verified: placed whole, or, where it is added
      to or written through, anything. */
  predicate Changed(job: Job, s: Disk) {
    && Verified(job.content, job.sums)
    && (job.script.Place? ==> job.target in s && s[job.target].File? && s[job.target].bytes == job.content
                              && (s[job.target].mode == job.Given() || s[job.target].mode == job.Final()))
  }

  predicate SameAt(a: Disk, b: Disk, path: string) {
    (path in a <==> path in b) && (path in a ==> a[path] == b[path])
  }

  /** A staged file is its user's alone, or holds nothing but the probe's zeros. */
  predicate Guarded(n: Node) {
    n.File? && (n.mode == PRIVATE || forall i :: 0 <= i < |n.bytes| ==> n.bytes[i] == 0)
  }

  /** What was in the area before is as it was, and what is new is what was put there: the content is guarded until it is
      verified (`open`), its checksum throughout. */
  predicate Formed(before: Disk, s: Disk, area: Area, open: bool) {
    && (SameAt(before, s, area.staged)
        || (area.staged !in before && (area.staged in s ==> Guarded(s[area.staged]) || (open && s[area.staged].File?))))
    && (SameAt(before, s, area.expected) || (area.expected !in before && (area.expected in s ==> Guarded(s[area.expected]))))
    && (SameAt(before, s, area.directory) || (area.directory !in before && (area.directory in s ==> s[area.directory].Directory?)))
  }

  /** At any moment: nothing but the area and the target has changed, the target is as it was, or what was
      verified, and what is staged is guarded until then. */
  predicate Sound(job: Job, s: Disk) {
    && Kept(job.before, s, job.area.Paths() + {job.target})
    && Formed(job.before, s, job.area, Verified(job.content, job.sums))
    && (SameAt(job.before, s, job.target) || Changed(job, s))
  }

  // ----- what the storage keeps -----

  /** What the storage kept, at some call, of the bytes `sent`. */
  ghost predicate StoredAs(w: Weather, bytes: Bytes, sent: Bytes) {
    exists t :: bytes == w.stored(t, sent)
  }

  /** The checksum's text for `data`. */
  function SumOf(data: Bytes): Bytes { Ascii(Crc.PosixCksum(data)) }

  /** What a program found staged is what the storage kept of `data` and of its checksum; nothing, where the
      transfer fell short and no program ran. */
  ghost predicate Sent(w: Weather, job: Job, data: Bytes) {
    || (job.content == [] && job.sums == [])
    || (StoredAs(w, job.content, data) && StoredAs(w, job.sums, SumOf(data)) && |job.content| == |data|)
  }

  /** The storage keeps `bytes` as they are sent, whenever that is. */
  ghost predicate Keeps(w: Weather, bytes: Bytes) {
    forall t :: w.stored(t, bytes) == bytes
  }

  /** From call `from` on, the link is up, every call and command works, and the storage keeps what it is sent. */
  ghost predicate Fair(w: Weather, from: nat) {
    && (forall t: nat :: from <= t ==> w.up(t) && w.failure(t).None? && w.starts(t) && !w.dies(t))
    && forall t, bytes :: w.stored(t, bytes) == bytes
  }

  lemma FairIsFair(w: Weather, from: nat)
    requires Fair(w, from)
    ensures forall t: nat :: from <= t ==> Fair(w, t)
  {
  }

  lemma FairAt(w: Weather, from: nat, t: nat)
    requires Fair(w, from) && from <= t
    ensures w.up(t) && w.failure(t).None? && w.starts(t) && !w.dies(t) && w.Reply(t).None? && w.Does(t) && Fair(w, t)
    ensures forall bytes :: w.stored(t, bytes) == bytes
  {
  }

  /** The next call is refused as a directory closed to new entries refuses it, and all goes well after it. */
  ghost predicate Refuses(w: Weather, t: nat) {
    w.up(t) && (w.failure(t) == Some(EACCES) || w.failure(t) == Some(EPERM)) && Fair(w, t + 1)
  }

  /** All goes well from call `t` on; or, where a file is to be overwritten or added to, all but that its
      directory is closed to new entries, which the call after that one is told. */
  ghost predicate Goes(w: Weather, t: nat, file: bool) {
    Fair(w, t) || (file && w.up(t) && w.failure(t).None? && Refuses(w, t + 1))
  }

  lemma GoesOn(w: Weather, t: nat, file: bool)
    requires Goes(w, t, file)
    ensures w.up(t) && w.failure(t).None? && (Fair(w, t + 1) || (file && Refuses(w, t + 1)))
  {
  }

  /** The call connects, its user may write the target, and the tokens drawn end no path there is. */
  ghost predicate Willing(w: Weather, disk: Disk, path: string, name: string, again: string) {
    path != "" && w.connects && w.writable && Unused(disk, name) && Unused(disk, again)
  }

  /** The link is up from call `from` until call `until`, and the last three calls, the removals, work. */
  ghost predicate Calm(w: Weather, from: nat, until: nat) {
    (forall i: nat :: from <= i < until ==> w.up(i)) && (forall i: nat :: until - 3 <= i < until ==> w.failure(i).None?)
  }

  lemma CalmEnds(w: Weather, from: nat, until: nat)
    requires Calm(w, from, until) && from + 3 <= until
    ensures forall i: nat :: until - 3 <= i < until ==> w.up(i) && w.failure(i).None?
  {
  }

  lemma CalmAt(w: Weather, from: nat, until: nat)
    requires Calm(w, from, until) && from < until
    ensures w.up(until - 1)
  {
  }

  lemma CalmLater(w: Weather, from: nat, until: nat)
    requires Calm(w, from, until)
    ensures Calm(w, from + 1, until)
  {
  }

  /** No path ends with this name. */
  ghost predicate Unused(disk: Disk, name: string) {
    forall p :: p in disk ==> !EndsWith(p, name)
  }

  /** The bytes a write leaves in its target, after those an append found there. What is no file shows nothing. */
  predicate Delivered(before: Disk, s: Disk, target: string, data: Bytes, append: bool) {
    || (target in before && !before[target].File?)
    || (target in s && s[target].File? && s[target].bytes == (if append then FileAt(before, target) else []) + data)
  }

  function FileAt(s: Disk, path: string): Bytes {
    if path in s && s[path].File? then s[path].bytes else []
  }

  /** Every call from `from` until `until` was answered, and not with an error. */
  ghost predicate Replied(w: Weather, from: nat, until: nat) {
    forall i: nat :: from <= i < until ==> w.Reply(i).None?
  }

  // ----- the remote host -----

  class Remote {
    const w: Weather
    var disk: Disk
    var t: nat
    /** Every state the disk has been in. */
    ghost var history: seq<Disk>

    constructor (w: Weather, disk: Disk)
      ensures this.w == w && this.disk == disk && t == 0 && history == []
    {
      this.w, this.disk, t, history := w, disk, 0, [];
    }

    /** A call over SFTP that has `effect` if it can, and `partial` if the server fails it. */
    method Call(can: bool, effect: Disk, partial: Disk) returns (error: Option<Errno>)
      modifies this
      ensures t == old(t) + 1 && history == old(history) + [disk]
      ensures disk == if !can then old(disk) else if w.Does(old(t)) then effect else if w.up(old(t)) then partial else old(disk)
      ensures error == if w.Reply(old(t)).Some? then w.Reply(old(t)) else if can then None else Some(ENOENT)
    {
      error := if w.Reply(t).Some? then w.Reply(t) else if can then None else Some(ENOENT);
      if can {
        if w.Does(t) {
          disk := effect;
        } else if w.up(t) {
          disk := partial;
        }
      }
      t := t + 1;
      history := history + [disk];
    }

    /** A step of a program on the host, which has `effect` if it can, and `partial` if it fails or dies. */
    method Step(can: bool, effect: Disk, partial: Disk) returns (done: bool)
      modifies this
      ensures t == old(t) + 1 && history == old(history) + [disk]
      ensures done <==> can && w.failure(old(t)).None? && !w.dies(old(t))
      ensures disk == if done then effect else if can then partial else old(disk)
    {
      done := can && w.failure(t).None? && !w.dies(t);
      if done {
        disk := effect;
      } else if can {
        disk := partial;
      }
      t := t + 1;
      history := history + [disk];
    }

    /** Since `from`, the disk has differed from `before` in the area alone. */
    ghost predicate OnlyArea(before: Disk, from: nat, area: Area)
      reads this
    {
      && from <= |history| && StagedOn(before, disk, area)
      && forall k :: from <= k < |history| ==> StagedOn(before, history[k], area)
    }

    ghost predicate SoundSince(job: Job, from: nat)
      reads this
    {
      && from <= |history| && Sound(job, disk)
      && forall k :: from <= k < |history| ==> Sound(job, history[k])
    }

    /** A call that changes one file of the area. */
    method StageCall(can: bool, path: string, node: Node, partial: bool, ghost before: Disk, ghost from: nat, ghost area: Area)
      returns (done: bool)
      requires OnlyArea(before, from, area) && (path == area.staged || path == area.expected) && area.directory != path && Guarded(node)
      requires path !in before
      modifies this
      ensures OnlyArea(before, from, area) && old(t) < t && old(history) <= history
      ensures disk == old(disk) || disk == old(disk)[path := node]
      ensures done ==> can && disk == old(disk)[path := node]
      ensures t == old(t) + 1 && (done ==> w.Reply(old(t)).None?)
      ensures can && Fair(w, old(t)) ==> done
    {
      hide StagedOn, Fair;
      if Fair(w, t) { FairAt(w, t, t); }
      StagedUpdate(before, disk, area, path, node);
      var error := Call(can, disk[path := node], if partial then disk[path := node] else disk);
      done := error.None?;
    }

    /** `_upload`: created anew, made private before any byte, then written. */
    method Upload(path: string, data: Bytes, ghost before: Disk, ghost from: nat, ghost area: Area) returns (arrived: bool)
      requires OnlyArea(before, from, area) && (path == area.staged || path == area.expected) && area.directory != path
      requires path !in before
      modifies this
      ensures OnlyArea(before, from, area) && old(t) < t && old(history) <= history
      ensures arrived ==> path in disk && disk[path].File? && disk[path].mode == PRIVATE
      ensures arrived ==> |disk[path].bytes| == |data| && StoredAs(w, disk[path].bytes, data)
      ensures arrived ==> t == old(t) + 5 && Replied(w, old(t), t)
      ensures forall p :: p != path ==> SameAt(old(disk), disk, p)
      ensures path !in old(disk) && Fair(w, old(t)) ==> arrived
    {
      hide OnlyArea, Fair, StoredAs;
      ghost var t0 := t;
      if Fair(w, t0) { FairIsFair(w, t0); }
      arrived := StageCall(path !in disk, path, File([], PLAIN & !w.umask), false, before, from, area);
      if !arrived {
        return;
      }
      arrived := StageCall(true, path, disk[path].(mode := PRIVATE), false, before, from, area);
      if !arrived {
        return;
      }
      ghost var made := disk;
      assert forall p :: p != path ==> SameAt(old(disk), made, p);
      arrived := Fill(path, data, before, from, area);
      forall p | p != path ensures SameAt(old(disk), disk, p) {
        assert SameAt(old(disk), made, p) && SameAt(made, disk, p);
      }
    }

    /** The write, the close and the size asked, every reply checked. */
    method Fill(path: string, data: Bytes, ghost before: Disk, ghost from: nat, ghost area: Area) returns (arrived: bool)
      requires OnlyArea(before, from, area) && (path == area.staged || path == area.expected) && area.directory != path
      requires path !in before && path in disk && disk[path].File? && disk[path].mode == PRIVATE
      modifies this
      ensures OnlyArea(before, from, area) && old(t) < t && old(history) <= history
      ensures arrived ==> path in disk && disk[path].File? && disk[path].mode == PRIVATE
      ensures arrived ==> |disk[path].bytes| == |data| && StoredAs(w, disk[path].bytes, data)
      ensures arrived ==> t == old(t) + 3 && Replied(w, old(t), t)
      ensures forall p :: p != path ==> SameAt(old(disk), disk, p)
      ensures Fair(w, old(t)) ==> arrived
    {
      hide OnlyArea, Fair;
      ghost var t0 := t;
      if Fair(w, t0) {
        FairIsFair(w, t0);
        FairAt(w, t0, t0);
      }
      var kept := disk[path].(bytes := w.stored(t, data));
      arrived := StageCall(true, path, kept, true, before, from, area);
      if !arrived {
        return;
      }
      // Neither the close nor the question changes anything.
      arrived := StageCall(true, path, kept, true, before, from, area);
      if !arrived {
        return;
      }
      arrived := StageCall(true, path, kept, true, before, from, area);
      arrived := arrived && |kept.bytes| == |data|;
    }

    /** Both uploads: the content, then its checksum. */
    method Transfer(area: Area, data: Bytes, ghost before: Disk, ghost from: nat) returns (arrived: bool)
      requires OnlyArea(before, from, area)
      requires Distinct3(area) && area.staged !in before && area.expected !in before
      modifies this
      ensures OnlyArea(before, from, area) && old(t) < t && old(history) <= history
      ensures arrived ==> area.staged in disk && disk[area.staged].File? && area.expected in disk && disk[area.expected].File?
      ensures arrived ==> |disk[area.staged].bytes| == |data| && StoredAs(w, disk[area.staged].bytes, data)
      ensures arrived ==> StoredAs(w, disk[area.expected].bytes, SumOf(data))
      ensures area.staged !in old(disk) && area.expected !in old(disk) && Fair(w, old(t)) ==> arrived
    {
      hide StagedOn, StoredAs, Fair;
      ghost var t0 := t;
      arrived := Upload(area.staged, data, before, from, area);
      if arrived {
        var sum := Crc.Cksum(data);
        ghost var content := disk;
        if Fair(w, t0) { FairAt(w, t0, t); }
        assert SameAt(old(disk), disk, area.expected);
        arrived := Upload(area.expected, Ascii(sum), before, from, area);
        assert SameAt(content, disk, area.staged);
      }
    }

    /** `PROBE`: some zero bytes are added to what is staged, or to a new file when nothing is. */
    method Probe(area: Area, ghost before: Disk, ghost from: nat)
      requires OnlyArea(before, from, area) && Distinct3(area)
      requires area.staged !in before
      modifies this
      ensures OnlyArea(before, from, area) && old(t) < t && old(history) <= history
    {
      hide StagedOn;
      StagedIsGuarded(before, disk, area);
      var was := if area.staged in disk then disk[area.staged] else File([], PLAIN & !w.umask);
      var zeros := was.(bytes := was.bytes + Zeros(|w.stored(t, [])|));
      StagedUpdate(before, disk, area, area.staged, zeros);
      var done := Step(w.starts(t), disk[area.staged := zeros], disk[area.staged := zeros]);
    }

    /** A step that leaves the disk sound whatever becomes of it. */
    method SoundStep(can: bool, effect: Disk, partial: Disk, ghost job: Job, ghost from: nat) returns (done: bool)
      requires SoundSince(job, from) && Sound(job, effect) && Sound(job, partial)
      modifies this
      ensures SoundSince(job, from) && t == old(t) + 1 && old(history) <= history
      ensures done ==> can && disk == effect
      ensures !done ==> disk == partial || disk == old(disk)
      ensures can && Fair(w, old(t)) ==> done
    {
      hide Sound, Fair;
      if Fair(w, t) { FairAt(w, t, t); }
      done := Step(can, effect, partial);
    }

    /** `chmod -- "$3" "$1" && mv -f -- "$1" "$2"` */
    method PlaceStaged(ghost job: Job, ghost from: nat, area: Area, target: string, mode: Option<Mode>) returns (done: bool)
      requires SoundSince(job, from) && Ready(job, disk) && Verified(job.content, job.sums) && job.script.Place?
      requires job.area == area && job.target == target && job.mode == mode && job.umask == w.umask
      modifies this
      ensures SoundSince(job, from) && old(t) <= t && old(history) <= history
      ensures done ==> target in disk && disk[target] == File(job.content, job.Given())
      ensures Fair(w, old(t)) ==> done
    {
      hide Sound, Verified, Rename, Chmod, StagedOn, Fair;
      if Fair(w, t) { FairAt(w, t, t + 1); }
      var given := if mode.Some? then mode.value else PLAIN & !w.umask;
      ChmodIsSound(job, disk, given);
      done := SoundStep(true, Chmod(disk, area.staged, given), disk, job, from);
      if done {
        RenameIsSound(job, disk);
        done := SoundStep(true, Rename(disk, area.staged, target), disk, job, from);
      }
    }

    /** `cat -- "$1" >>"$2"`, or `>"$2"` */
    method PourStaged(ghost job: Job, ghost from: nat, area: Area, target: string, append: bool) returns (done: bool)
      requires SoundSince(job, from) && Ready(job, disk) && Verified(job.content, job.sums) && !job.script.Place?
      requires job.area == area && job.target == target && job.umask == w.umask && append == job.script.Append?
      modifies this
      ensures SoundSince(job, from) && old(t) <= t && old(history) <= history
      ensures done ==> PouredInto(job, disk, job.PouredMode()) && target in disk
      ensures Fair(w, old(t)) ==> done
    {
      hide Sound, Verified, Poured, PouredInto, StagedOn, Fair;
      StagedKeepsTarget(job, disk);
      assert FileAt(disk, target) == FileAt(job.before, target) && FileAt(disk, area.staged) == job.content;
      PouredIsPoured(job, disk);
      var bytes := (if append then FileAt(disk, target) else []) + FileAt(disk, area.staged);
      PouredIsSound(job, disk, bytes);
      PouredIsSound(job, disk, w.stored(t, bytes));
      done := SoundStep(true, Poured(disk, target, bytes, w.umask), Poured(disk, target, w.stored(t, bytes), w.umask), job, from);
    }

    /** The program that puts the staged file in place: each command runs only when those before it have
        succeeded. */
    method Program(ghost job: Job, ghost from: nat, area: Area, target: string, mode: Option<Mode>, script: Script, executable: bool)
      returns (status: int)
      requires SoundSince(job, from) && Ready(job, disk)
      requires job.area == area && job.target == target && job.mode == mode && job.script == script
      requires job.executable == executable && job.umask == w.umask
      modifies this
      ensures SoundSince(job, from) && old(t) <= t && old(history) <= history
      ensures status == 0 || status == 1
      ensures status == 0 ==> Complete(job, disk, w.writable)
      ensures Fair(w, old(t)) && Verified(job.content, job.sums) && (script == Place(true) ==> target in old(disk) && w.writable) ==>
                status == 0
    {
      hide Sound, Verified, StagedOn, Rename, Chmod, Poured, Executable, Fair;
      ghost var t0 := t;
      if Fair(w, t0) { FairIsFair(w, t0); }
      var content, sums := FileAt(disk, area.staged), FileAt(disk, area.expected);
      VerifiedIs(job);
      var done := SoundStep(Ascii(Crc.PosixCksum(content)) == Shell.Captured(sums), disk, disk, job, from);
      if !done {
        return 1;
      }
      if script == Place(true) {
        done := SoundStep(target in disk && w.writable, disk, disk, job, from);
        if !done {
          return 1;
        }
      }
      if script.Place? {
        done := PlaceStaged(job, from, area, target, mode);
      } else {
        done := PourStaged(job, from, area, target, script.Append?);
      }
      if done && executable {
        ExecutableIsSound(job, disk);
        done := SoundStep(target in disk, Executable(disk, target, w.umask), disk, job, from);
      }
      status := if done then 0 else 1;
    }

    /** One removal of `_discard`, whatever becomes of it. */
    method Remove(can: bool, path: string, ghost job: Job, ghost from: nat)
      requires SoundSince(job, from) && Distinct(job) && Removed(job.before, job.area) && path in job.area.Paths()
      modifies this
      ensures SoundSince(job, from) && t == old(t) + 1 && old(history) <= history
      ensures disk == old(disk) || (can && disk == old(disk) - {path})
      ensures can && w.up(old(t)) && w.failure(old(t)).None? ==> disk == old(disk) - {path}
    {
      hide Sound;
      RemovedIsSound(job, disk, path);
      var error := Call(can, disk - {path}, disk);
    }

    /** `_discard`: each removal is tried whatever became of the one before it. */
    method Discard(ghost job: Job, ghost from: nat, area: Area)
      requires SoundSince(job, from) && job.area == area && Settled(job)
      modifies this
      ensures SoundSince(job, from) && t == old(t) + 3 && old(history) <= history
      ensures SameAt(old(disk), disk, job.target)
      ensures (forall i :: old(t) <= i < t ==> w.up(i) && w.failure(i).None?) ==> Removed(disk, area)
      ensures area.directory in old(disk) && area.directory !in disk ==> forall p :: p in disk ==> Dirname(p) != area.directory
    {
      hide Dirname, Sound, Settled;
      ghost var t0 := t;
      AreaKinds(job, disk);
      Remove(area.staged in disk && !disk[area.staged].Directory?, area.staged, job, from);
      AreaKinds(job, disk);
      Remove(area.expected in disk && !disk[area.expected].Directory?, area.expected, job, from);
      AreaKinds(job, disk);
      NothingInside(job, disk);
      Remove(area.directory in disk && forall p :: p in disk ==> Dirname(p) != area.directory, area.directory, job, from);
      assert (forall i :: t0 <= i < t ==> w.up(i) && w.failure(i).None?) ==>
               w.up(t0) && w.failure(t0).None? && w.up(t0 + 1) && w.failure(t0 + 1).None? && w.up(t0 + 2) && w.failure(t0 + 2).None?;
    }

    /** `_stage`'s `mkdir`, the directory private to its user. */
    method MakeStage(area: Area) returns (error: Option<Errno>)
      requires Distinct3(area)
      modifies this
      ensures OnlyArea(old(disk), |old(history)|, area) && t == old(t) + 1 && old(history) <= history
      ensures error.None? ==> area.directory !in old(disk)
      ensures Closed(error) ==> disk == old(disk) && w.failure(old(t)) == error
      ensures error.None? ==> w.failure(old(t)).None?
      ensures history == old(history) + [disk]
      ensures error.Some? ==> disk == old(disk) || (area.directory !in old(disk) && !w.up(old(t)))
      ensures area.directory !in old(disk) && w.up(old(t)) ==> error == w.failure(old(t))
      ensures forall p :: p != area.directory ==> SameAt(old(disk), disk, p)
    {
      error := Call(area.directory !in disk, disk[area.directory := Directory], disk);
    }

    /** The program over the connection, which may not start it, and may be gone when it ends. */
    method RunProgram(ghost job: Job, ghost from: nat, area: Area, target: string, mode: Option<Mode>, script: Script, executable: bool)
      returns (code: int)
      requires SoundSince(job, from) && Ready(job, disk) && SameAt(job.before, disk, target)
      requires job.area == area && job.target == target && job.mode == mode && job.script == script
      requires job.executable == executable && job.umask == w.umask
      modifies this
      ensures SoundSince(job, from) && old(t) <= t && old(history) <= history
      ensures code == 0 ==> Complete(job, disk, w.writable)
      ensures code == Framing.NOT_STARTED_EXIT_CODE <==> !w.starts(old(t))
      ensures code == Framing.NOT_STARTED_EXIT_CODE ==> SameAt(job.before, disk, target)
      ensures code != Framing.NOT_STARTED_EXIT_CODE ==>
                if w.up(t) then code == 0 || code == 1 else code == Framing.CONNECTION_LOST_EXIT_CODE
      ensures Fair(w, old(t)) && Verified(job.content, job.sums) && (script == Place(true) ==> target in old(disk) && w.writable) ==>
                code == 0
    {
      hide Sound, StagedOn, Complete, Verified, Fair;
      ghost var t0 := t;
      if Fair(w, t0) { FairAt(w, t0, t0); }
      if !w.starts(t) {
        return Framing.NOT_STARTED_EXIT_CODE;
      }
      var status := Program(job, from, area, target, mode, script, executable);
      if Fair(w, t0) { FairAt(w, t0, t); }
      code := if w.up(t) then status else Framing.CONNECTION_LOST_EXIT_CODE;
    }

    /** `write`, once a directory to stage in has been made: whatever happens, the area is discarded. */
    method WriteStaged(ghost job0: Job, ghost from: nat, area: Area, target: string, mode: Option<Mode>, through: bool,
                       data: Bytes, append: bool, executable: bool)
      returns (end: End, ghost job: Job)
      requires OnlyArea(job0.before, from, area) && Settled(job0)
      requires job0.area == area && job0.target == target && job0.mode == mode && job0.script == ScriptOf(append, through, mode)
      requires job0.executable == executable && job0.umask == w.umask
      modifies this
      ensures job == job0.(content := job.content, sums := job.sums) && Sent(w, job, data)
      ensures SoundSince(job, from) && old(t) + 3 <= t
      ensures end == Exit(0) ==> Complete(job, disk, w.writable)
      ensures end.Raised? || end == Exit(Framing.NOT_STARTED_EXIT_CODE) ==> SameAt(job.before, disk, target)
      ensures !end.NotRun? && Reported(w, end, t) && (end.Raised? ==> end.errno == SHORT)
      ensures (forall i: nat :: t - 3 <= i < t ==> w.up(i) && w.failure(i).None?) ==> Removed(disk, area)
      ensures (&& Fair(w, old(t)) && w.writable && area.staged !in old(disk) && area.expected !in old(disk)
               && (job0.script == Place(true) ==> target in job0.before)) ==>
                end == Exit(0)
    {
      hide StagedOn, Sound, Complete, Settled, ScriptOf, Removed, StoredAs, SumOf, Fair, Verified;
      ghost var t0 := t;
      if Fair(w, t0) { FairIsFair(w, t0); }
      SettledIsDistinct(job0);
      AreaIsNew(job0);
      var arrived := Transfer(area, data, job0.before, from);
      job := if arrived then job0.(content := FileAt(disk, area.staged), sums := FileAt(disk, area.expected))
             else job0.(content := [], sums := []);
      SettledCarries(job0, job);
      if !arrived {
        Probe(area, job0.before, from);
        OnlyAreaIsSound(job, from);
        StagedKeepsTarget(job, disk);
        Discard(job, from, area);
        return Raised(SHORT), job;
      }
      OnlyAreaIsSound(job, from);
      StagedKeepsTarget(job, disk);
      if Fair(w, t0) { FairIsVerified(job, w, t0, data); }
      var code := RunProgram(job, from, area, target, mode, ScriptOf(append, through, mode), executable);
      ghost var placed := disk;
      Discard(job, from, area);
      if code == 0 {
        CompleteAt(job, placed, disk, w.writable);
      }
      end := Exit(code);
    }

    /** `write`; `name` and `again` are the prefix and a fresh token each. For an overwrite placed by a rename,
        if the storage keeps the checksum's text as it was sent, then at every moment since the call the target
        is as it was or has the length and the checksum of `data` (and is `data`, if the storage keeps that too);
        and exit 0 means the latter, with the permission bits due. */
    method Write(path: string, data: Bytes, append: bool, executable: bool, name: string, again: string)
      returns (end: End, ghost job: Job)
      requires Rooted(disk) && Drawn(name, path, w.normal) && Drawn(again, path, w.normal)
      modifies this
      ensures Accounted(job, old(disk), |old(history)|, data, end)
      ensures Meant(job, w, Staging(old(disk), w.normal, path), path, append, executable, w.failure(old(t) + 1), end)
      ensures var landing := Staging(old(disk), w.normal, path);
              && OthersSince(old(disk), |old(history)|, TargetOf(landing, path))
              && (ByRename(append, landing, w.failure(old(t) + 1)) && Keeps(w, SumOf(data)) ==>
                && WholeSince(old(disk), |old(history)|, TargetOf(landing, path), data, Keeps(w, data))
                && (end == Exit(0) ==> Replaced(old(disk), disk, landing, data, Keeps(w, data), executable, w)))
      ensures !end.Exit? || end == Exit(Framing.NOT_STARTED_EXIT_CODE) ==>
                SameAt(old(disk), disk, TargetOf(Staging(old(disk), w.normal, path), path))
      ensures Calm(w, old(t), t) ==>
                forall p :: p != TargetOf(Staging(old(disk), w.normal, path), path) ==> SameAt(old(disk), disk, p)
      ensures Reported(w, end, t) && (end.Exit? && job.script.Place? ==> job.area == Beside(job.target, name))
      ensures path == "" ==> end == Raised(ENOENT)
      ensures end.NotRun? <==> path != "" && !w.connects
      ensures path != "" && w.connects && w.Reply(old(t)).Some? ==> end == Raised(w.Reply(old(t)).value)
      ensures path in old(disk) && old(disk)[path].Directory? && path != "" && w.connects && Fair(w, old(t)) ==> end == Raised(EISDIR)
      ensures forall target :: (&& Lands(old(disk), w.normal, path, target) && Willing(w, old(disk), path, name, again)
                                && Goes(w, old(t), target in old(disk) && old(disk)[target].File?)) ==>
                end == Exit(0) && Delivered(old(disk), disk, target, data, append)
    {
      hide Staging, Sound, Complete, Rooted, Drawn, Sent, Keeps, Replaced, ByRename, ScriptOf, SameAt, Like, KeepsOthers, Goes, Fair, Willing;
      ghost var before, from, refusal, landing := disk, |history|, w.failure(t + 1), Staging(disk, w.normal, path);
      LandsExactly(disk, w.normal, path);
      ghost var t0 := t;
      end, job := WriteJob(path, data, append, executable, name, again);
      SinceKeepsOthers(job, from);
      forall target | (&& Lands(before, w.normal, path, target) && Willing(w, before, path, name, again)
                       && Goes(w, t0, target in before && before[target].File?))
        ensures end == Exit(0) && Delivered(before, disk, target, data, append) {
        LandingIs(before, w.normal, path);
        GoneWell(w, t0, target in before && before[target].File?);
        DeliveredAt(job, w, t0 + 2, path, disk, data, append, executable, refusal);
      }
      if Fair(w, t0) { FairAt(w, t0, t0); }
      if ByRename(append, landing, refusal) && Keeps(w, SumOf(data)) {
        SinceIsWhole(job, from, data);
        if end == Exit(0) {
          ExitZeroMeans(job, w, path, disk, data, append, executable, refusal, end);
        }
      }
    }

    /** Every state since the call, and what the call found, is in the job's account. */
    ghost predicate Accounted(job: Job, before: Disk, from: nat, data: Bytes, end: End)
      reads this
    {
      && job.before == before && SoundSince(job, from) && Sent(w, job, data)
      && (end == Exit(0) ==> Complete(job, disk, w.writable))
    }

    /** At every moment since `from`, all there was before but the target is as it was. */
    ghost predicate OthersSince(before: Disk, from: nat, target: string)
      reads this
    {
      from <= |history| && KeepsOthers(before, disk, target)
      && forall k :: from <= k < |history| ==> KeepsOthers(before, history[k], target)
    }

    lemma SinceKeepsOthers(job: Job, from: nat)
      requires SoundSince(job, from)
      ensures OthersSince(job.before, from, job.target)
    {
      hide Sound, KeepsOthers;
      SoundKeepsOthers(job, disk);
      forall k | from <= k < |history| ensures KeepsOthers(job.before, history[k], job.target) {
        SoundKeepsOthers(job, history[k]);
      }
    }

    /** At every moment since `from`, the target as it was before, or `data`'s. */
    ghost predicate WholeSince(before: Disk, from: nat, target: string, data: Bytes, exact: bool)
      reads this
    {
      from <= |history| && Whole(before, disk, target, data, exact)
      && forall k :: from <= k < |history| ==> Whole(before, history[k], target, data, exact)
    }

    lemma SinceIsWhole(job: Job, from: nat, data: Bytes)
      requires SoundSince(job, from) && Sent(w, job, data) && job.script.Place? && Keeps(w, SumOf(data))
      ensures WholeSince(job.before, from, job.target, data, Keeps(w, data))
    {
      hide Sound, Sent, Keeps, Whole;
      WholeOrNotAtAll(job, w, disk, data);
      forall k | from <= k < |history| ensures Whole(job.before, history[k], job.target, data, Keeps(w, data)) {
        WholeOrNotAtAll(job, w, history[k], data);
      }
    }

    /** `write`, and the account of it. A directory closed to a new entry has an existing file in it written
        through, from an area in the login home. */
    method WriteJob(path: string, data: Bytes, append: bool, executable: bool, name: string, again: string)
      returns (end: End, ghost job: Job)
      requires Rooted(disk) && Drawn(name, path, w.normal) && Drawn(again, path, w.normal)
      modifies this
      ensures Accounted(job, old(disk), |old(history)|, data, end)
      ensures Meant(job, w, Staging(old(disk), w.normal, path), path, append, executable, w.failure(old(t) + 1), end)
      ensures !end.Exit? || end == Exit(Framing.NOT_STARTED_EXIT_CODE) ==> SameAt(old(disk), disk, job.target)
      ensures Calm(w, old(t), t) ==>
                forall p :: p != job.target ==> SameAt(old(disk), disk, p)
      ensures Reported(w, end, t) && (end.Exit? && job.script.Place? ==> job.area == Beside(job.target, name))
      ensures path == "" ==> end == Raised(ENOENT)
      ensures end.NotRun? <==> path != "" && !w.connects
      ensures path != "" && w.connects && w.Reply(old(t)).Some? ==> end == Raised(w.Reply(old(t)).value)
      ensures (&& Willing(w, old(disk), path, name, again) && Staging(old(disk), w.normal, path).Landing?
               && var landing := Staging(old(disk), w.normal, path);
                  Goes(w, old(t), landing.mode.Some? && !landing.through)) ==>
                end == Exit(0)
      ensures path != "" && w.connects && w.up(old(t)) && w.failure(old(t)).None? && Staging(old(disk), w.normal, path).NoLanding? ==>
                end == Raised(Staging(old(disk), w.normal, path).errno)
    {
      hide Staging, Sound, StagedOn, Complete, Settled, ScriptOf, Removed, AreaIn, Rooted, Drawn, Kept, StoredAs, Fair, Unused, Goes, Refuses, Calm;
      ghost var t0, from, place := t, |history|, Staging(disk, w.normal, path);
      job := Intended(disk, w, place, path, AreaIn(".", name), append, executable);
      IntendedIsMeant(job, disk, w, place, path, AreaIn(".", name), append, executable, w.failure(t0 + 1), NotRun);
      var refused := Ask(path);
      if refused.Some? {
        QuietIsSound(job);
        return refused.value, job;
      }
      var landing := Staging(disk, w.normal, path);
      LandingIs(disk, w.normal, path);
      LandingIsDrawn(disk, w, path, name);
      LandingIsDrawn(disk, w, path, again);
      end, job := WriteLanded(job, from, landing.target, landing.mode, landing.through, data, append, executable, name, again);
      if Calm(w, t0, t) { CalmLater(w, t0, t); }
    }

    /** What `write` does before it knows the place: connect, and ask the server for it. */
    method Ask(path: string) returns (refused: Option<End>)
      modifies this
      ensures disk == old(disk) && old(history) <= history && QuietSince(old(disk), |old(history)|)
      ensures refused.None? ==> path != "" && w.connects && Staging(disk, w.normal, path).Landing? && t == old(t) + 1
      ensures refused.Some? ==> !refused.value.Exit? && (refused.value.NotRun? <==> path != "" && !w.connects)
      ensures path == "" ==> refused == Some(Raised(ENOENT))
      ensures path != "" && w.connects && w.Reply(old(t)).Some? ==> refused == Some(Raised(w.Reply(old(t)).value))
      ensures path != "" && w.connects && w.up(old(t)) && w.failure(old(t)).None? ==>
                refused == if Staging(disk, w.normal, path).Landing? then None else Some(Raised(Staging(disk, w.normal, path).errno))
      ensures forall file :: Goes(w, old(t), file) ==>
                w.up(old(t)) && w.failure(old(t)).None? && (Fair(w, old(t) + 1) || (file && Refuses(w, old(t) + 1)))
    {
      hide Staging, Goes, Fair, Refuses;
      forall file | Goes(w, t, file) ensures w.up(t) && w.failure(t).None? && (Fair(w, t + 1) || (file && Refuses(w, t + 1))) {
        GoesOn(w, t, file);
      }
      if path == "" {
        return Some(Raised(ENOENT));
      }
      if !w.connects {
        return Some(NotRun);
      }
      var error := Call(true, disk, disk);
      if error.Some? {
        return Some(Raised(error.value));
      }
      var landing := Staging(disk, w.normal, path);
      if landing.NoLanding? {
        return Some(Raised(landing.errno));
      }
      refused := None;
    }

    /** `write`, once the place is known. */
    method WriteLanded(ghost job0: Job, ghost from: nat, target: string, mode: Option<Mode>, through: bool, data: Bytes,
                       append: bool, executable: bool, name: string, again: string)
      returns (end: End, ghost job: Job)
      requires QuietSince(job0.before, from) && Rooted(disk) && Name(name) && Name(again)
      requires !EndsWith(target, name) && !EndsWith(target, again)
      requires (mode.None? <==> target !in disk) && (through ==> mode.Some?)
      requires job0.target == target && job0.mode == mode && job0.script == ScriptOf(append, through, mode)
      requires job0.executable == executable && job0.umask == w.umask && job0.content == [] && job0.sums == []
      modifies this
      ensures job.before == job0.before && job.target == target && job.mode == mode
      ensures job.executable == executable && job.umask == w.umask
      ensures job.script == ScriptOf(append, through || (mode.Some? && Closed(w.failure(old(t)))), mode)
              || (end.Raised? && job.script == ScriptOf(append, through, mode))
      ensures SoundSince(job, from) && Sent(w, job, data) && !end.NotRun? && Reported(w, end, t)
      ensures end.Exit? && job.script.Place? ==> job.area == Beside(target, name)
      ensures end == Exit(0) ==> Complete(job, disk, w.writable)
      ensures end.Raised? || end == Exit(Framing.NOT_STARTED_EXIT_CODE) ==> SameAt(job.before, disk, target)
      ensures Calm(w, old(t), t) ==>
                forall p :: p != target ==> SameAt(job.before, disk, p)
      ensures (&& Unused(old(disk), name) && Unused(old(disk), again) && w.writable
               && (Fair(w, old(t)) || (Refuses(w, old(t)) && mode.Some? && !through))) ==>
                end == Exit(0)
    {
      hide Sound, StagedOn, Complete, Settled, Removed, Rooted, EndsWith, ScriptOf, Fair, Unused, Calm, Refuses, Kept;
      ghost var t0 := t;
      var error, area, wide := StageNear(job0, from, target, mode, through, name, again);
      job := job0.(area := area, script := ScriptOf(append, wide, mode));
      if error.Some? {
        if Calm(w, t0, t) { CalmAt(w, t0, t); }
        QuietIsSound(job);
        if area.directory !in job.before {
          SettledCarries(job0.(area := area), job);
          OnlyAreaIsSound(job, from);
          StagedKeepsTarget(job, disk);
        }
        return Raised(error.value), job;
      }
      SettledCarries(job0.(area := area), job);
      ScriptChecks(append, wide, mode);
      end, job := WriteStaged(job, from, area, target, mode, wide, data, append, executable);
      if Calm(w, t0, t) {
        CalmEnds(w, t0, t);
        CleanIs(job, disk);
      }
    }

    /** The staging directory: beside the target; in the login home, where the target is written through, as a file
        is whose directory is closed to new entries. */
    method StageNear(ghost job0: Job, ghost from: nat, target: string, mode: Option<Mode>, through: bool, name: string, again: string)
      returns (error: Option<Errno>, area: Area, wide: bool)
      requires QuietSince(job0.before, from) && Rooted(disk) && Name(name) && Name(again) && job0.target == target
      requires !EndsWith(target, name) && !EndsWith(target, again)
      requires (mode.None? <==> target !in disk) && (through ==> mode.Some?)
      modifies this
      ensures Distinct3(area) && OnlyArea(job0.before, from, area) && old(t) < t && old(history) <= history
      ensures wide == (through || (mode.Some? && Closed(w.failure(old(t))))) || (error.Some? && wide == through)
      ensures area.directory !in job0.before ==> Settled(job0.(area := area))
      ensures area.directory in job0.before ==> QuietSince(job0.before, from)
      ensures error.None? ==> area.directory !in job0.before && area.staged !in disk && area.expected !in disk
      ensures area == if !wide then Beside(target, name) else if through then AreaIn(".", name) else AreaIn(".", again)
      ensures error.Some? ==> disk == job0.before || (area.directory !in job0.before && !w.up(t - 1))
      ensures (&& Unused(old(disk), name) && Unused(old(disk), again)
               && (Fair(w, old(t)) || (Refuses(w, old(t)) && mode.Some? && !through))) ==>
                error.None? && Fair(w, t)
    {
      hide StagedOn, Settled, Removed, AreaIn, Rooted, Kept, EndsWith, Fair, Unused;
      ghost var t0, near, drawn := t, if through then "." else OrHere(Dirname(target)), name;
      area, wide := AreaIn(if through then "." else OrHere(Dirname(target)), name), through;
      ghost var start := |history|;
      NewArea(disk, near, name, w, t0);
      AreaDistinct(near, name);
      error := MakeStage(area);
      if mode.Some? && !through && Closed(error) {
        area, wide := AreaIn(".", again), true;
        near, drawn, start := ".", again, |history|;
        NewArea(disk, near, again, w, t);
        AreaDistinct(near, again);
        error := MakeStage(area);
      }
      QuietThenArea(job0.before, from, start, area);
      FairLater(w, t0, t);
      if area.directory !in job0.before {
        AreaIsSettled(job0.(area := area), near, drawn);
        AreaIsNew(job0.(area := area));
      }
      assert SameAt(job0.before, disk, area.staged) && SameAt(job0.before, disk, area.expected);
    }

    /** Nothing has changed since `from`. */
    ghost predicate QuietSince(before: Disk, from: nat)
      reads this
    {
      from <= |history| && disk == before && forall k :: from <= k < |history| ==> history[k] == before
    }

    lemma QuietThenArea(before: Disk, from: nat, mid: nat, area: Area)
      requires from <= mid && (forall k :: from <= k < mid && k < |history| ==> history[k] == before)
      requires OnlyArea(before, mid, area)
      ensures OnlyArea(before, from, area)
    {
      assert StagedOn(before, before, area);
    }

    lemma OnlyAreaIsSound(job: Job, from: nat)
      requires OnlyArea(job.before, from, job.area) && Distinct(job)
      ensures SoundSince(job, from)
    {
      hide StagedOn, Sound, Distinct;
      StagedIsSound(job, disk);
      forall k | from <= k < |history| ensures Sound(job, history[k]) {
        StagedIsSound(job, history[k]);
      }
    }
  }

  datatype End = Exit(code: int) | NotRun | Raised(errno: Errno)

  /** The program's status is 0 or 1, and is reported only over a link that was up when it ended, before the three
      removals; else the connection was lost. */
  predicate Reported(w: Weather, end: End, t: nat) {
    end.Exit? && end.code != Framing.NOT_STARTED_EXIT_CODE ==>
      t >= 3 && if w.up(t - 3) then end.code == 0 || end.code == 1 else end.code == Framing.CONNECTION_LOST_EXIT_CODE
  }

  function Zeros(n: nat): Bytes { seq(n, _ => 0) }

  lemma StagedIsGuarded(before: Disk, s: Disk, area: Area)
    requires StagedOn(before, s, area) && area.staged !in before
    ensures area.staged in s ==> Guarded(s[area.staged])
  {
  }

  predicate Distinct3(area: Area) {
    area.staged != area.expected && area.staged != area.directory && area.expected != area.directory
  }

  /** A token drawn at random is not one that the path, or what it is a link to, already ends with. */
  predicate Drawn(name: string, path: string, normal: string -> Option<string>) {
    && Name(name) && !EndsWith(path, name)
    && (normal(path).Some? ==> !EndsWith(normal(path).value, name))
  }

  lemma LongerThanAll(paths: set<string>) returns (n: nat)
    ensures forall p :: p in paths ==> |p| < n
  {
    n := 0;
    var left := paths;
    while left != {}
      invariant left <= paths && forall p :: p in paths && p !in left ==> |p| < n
    {
      var p :| p in left;
      n := n + |p| + 1;
      left := left - {p};
    }
  }

  /** Whatever a server answers and holds, some token is drawn so, and ends no path there is. */
  lemma TokenExists(disk: Disk, path: string, normal: string -> Option<string>) returns (name: string)
    ensures Drawn(name, path, normal) && Unused(disk, name)
  {
    var n := LongerThanAll(disk.Keys);
    name := seq(1 + n + |path| + if normal(path).Some? then |normal(path).value| else 0, _ => 'x');
    assert Name(name);
  }

  /** `CLOSED` */
  predicate Closed(error: Option<Errno>) { error == Some(EACCES) || error == Some(EPERM) }

  /** Whether what is written goes through the target, `refusal` being how its directory answered `mkdir`. */
  predicate GoesThrough(landing: Landing, refusal: Option<Errno>) {
    landing.Landing? && (landing.through || (landing.mode.Some? && Closed(refusal)))
  }

  /** An overwrite placed by a rename: no append, and not written through. */
  predicate ByRename(append: bool, landing: Landing, refusal: Option<Errno>) {
    !append && !GoesThrough(landing, refusal)
  }

  function TargetOf(landing: Landing, path: string): string {
    if landing.Landing? then landing.target else path
  }

  /** What a call sets out to do before it has asked for a place to stage in. */
  function Intended(before: Disk, w: Weather, landing: Landing, path: string, area: Area, append: bool, executable: bool): Job {
    var mode := if landing.Landing? then landing.mode else None;
    Job(before, area, TargetOf(landing, path), mode, ScriptOf(append, landing.Landing? && landing.through, mode), executable,
        w.umask, [], [])
  }

  /** The job is the one the call asked for, at the place the server named; a program that ran was the one
      for it. */
  predicate Meant(job: Job, w: Weather, landing: Landing, path: string, append: bool, executable: bool,
                  refusal: Option<Errno>, end: End) {
    && job.target == TargetOf(landing, path) && job.executable == executable && job.umask == w.umask
    && (landing.Landing? ==> job.mode == landing.mode)
    && (ByRename(append, landing, refusal) ==> job.script.Place?)
    && (end.Exit? ==> landing.Landing? && job.script == ScriptOf(append, GoesThrough(landing, refusal), landing.mode))
  }

  lemma IntendedIsMeant(job: Job, before: Disk, w: Weather, landing: Landing, path: string, area: Area, append: bool,
                        executable: bool, refusal: Option<Errno>, end: End)
    requires job == Intended(before, w, landing, path, area, append, executable) && !end.Exit?
    ensures Meant(job, w, landing, path, append, executable, refusal, end)
  {
  }

  lemma StagedKeepsTarget(job: Job, s: Disk)
    requires StagedOn(job.before, s, job.area) && Distinct(job)
    ensures SameAt(job.before, s, job.target)
  {
  }

  lemma AreaDistinct(near: string, name: string)
    requires Name(name)
    ensures Distinct3(AreaIn(near, name))
  {
    hide Dirname, EndsWith, Join;
    AreaPaths(near, name);
  }

  lemma AreaIsSettled(job: Job, near: string, name: string)
    requires job.area == AreaIn(near, name)
    requires Rooted(job.before) && Name(name) && job.area.directory !in job.before
    requires job.target in job.before || near == OrHere(Dirname(job.target))
    requires !EndsWith(job.target, name)
    ensures Settled(job)
  {
    hide Dirname, EndsWith, Join, Rooted;
    AreaIsApart(job.before, near, name, job.target);
    JoinedName(near, name);
    NotInItself(job.area.directory);
  }

  /** A directory no path's name ends with is new; and where the call goes through, it is made. */
  lemma NewArea(disk: Disk, near: string, name: string, w: Weather, t: nat)
    requires Name(name)
    ensures Unused(disk, name) ==> AreaIn(near, name).directory !in disk
    ensures Fair(w, t) ==> w.up(t) && w.failure(t).None?
  {
    hide EndsWith, Join;
    JoinedName(near, name);
  }

  lemma FairLater(w: Weather, from: nat, t: nat)
    requires from < t
    ensures Fair(w, from) || Refuses(w, from) ==> Fair(w, t)
  {
  }

  /** A place is checked to be writable only where there was a file, and only what is not written through is placed. */
  lemma ScriptChecks(append: bool, through: bool, mode: Option<Mode>)
    ensures ScriptOf(append, through, mode) == Place(true) ==> mode.Some?
    ensures ScriptOf(append, through, mode).Place? ==> !append && !through
  {
  }

  lemma CleanIs(job: Job, s: Disk)
    requires Sound(job, s) && Removed(s, job.area) && Removed(job.before, job.area)
    ensures forall p :: p != job.target ==> SameAt(job.before, s, p)
  {
    hide Changed;
  }

  lemma LandingIsDrawn(disk: Disk, w: Weather, path: string, name: string)
    requires Drawn(name, path, w.normal)
    ensures Name(name)
    ensures Staging(disk, w.normal, path).Landing? ==> !EndsWith(Staging(disk, w.normal, path).target, name)
  {
    hide EndsWith;
  }

  lemma QuietIsSound(job: Job)
    ensures Sound(job, job.before)
  {
  }

  lemma CompleteAt(job: Job, a: Disk, b: Disk, writable: bool)
    requires SameAt(a, b, job.target) && Complete(job, a, writable)
    ensures Complete(job, b, writable)
  {
  }

  lemma SettledIsDistinct(job: Job)
    requires Settled(job)
    ensures Distinct(job) && Removed(job.before, job.area)
  {
  }

  lemma AreaIsNew(job: Job)
    requires Settled(job)
    ensures job.area.staged !in job.before && job.area.expected !in job.before && Distinct3(job.area)
  {
  }

  lemma SettledCarries(a: Job, b: Job)
    requires Settled(a) && b.before == a.before && b.area == a.area && b.target == a.target
    ensures Settled(b) && Distinct(b) && Removed(b.before, b.area)
  {
  }

  lemma StagedIsSound(job: Job, s: Disk)
    requires StagedOn(job.before, s, job.area) && Distinct(job)
    ensures Sound(job, s)
  {
  }

  predicate Removed(s: Disk, area: Area) {
    area.staged !in s && area.expected !in s && area.directory !in s
  }

  /** The area was not there before, is apart from the target, and nothing else lies in it. */
  ghost predicate Settled(job: Job) {
    && Distinct(job) && Removed(job.before, job.area) && Dirname(job.area.directory) != job.area.directory
    && (forall p :: p in job.before || p == job.target ==> Dirname(p) != job.area.directory)
  }

  lemma RemovedIsSound(job: Job, s: Disk, path: string)
    requires Sound(job, s) && Distinct(job) && Removed(job.before, job.area) && path in job.area.Paths()
    ensures Sound(job, s - {path})
  {
    hide Verified;
  }

  lemma AreaKinds(job: Job, s: Disk)
    requires Sound(job, s) && Settled(job)
    ensures job.area.staged in s ==> s[job.area.staged].File?
    ensures job.area.expected in s ==> s[job.area.expected].File?
    ensures Distinct(job) && Removed(job.before, job.area)
  {
    hide Dirname, Changed;
  }

  /** Once its files are gone, the directory is empty. */
  lemma NothingInside(job: Job, s: Disk)
    requires Sound(job, s) && Settled(job)
    ensures job.area.staged !in s && job.area.expected !in s ==> forall p :: p in s ==> Dirname(p) != job.area.directory
  {
    hide Dirname, Changed;
  }

  /** What a program finds when it starts. */
  predicate Ready(job: Job, s: Disk) {
    && StagedOn(job.before, s, job.area)
    && job.area.staged in s && s[job.area.staged].File? && job.content == s[job.area.staged].bytes
    && job.area.expected in s && s[job.area.expected].File? && job.sums == s[job.area.expected].bytes
    && Distinct(job) && Removed(job.before, job.area)
  }

  /** Poured into a file, or a new one: its bytes, its mode its own. What is no file shows nothing of it. */
  predicate PouredInto(job: Job, s: Disk, mode: Mode) {
    (job.target in job.before && !job.before[job.target].File?)
    || (job.target in s && s[job.target] == File(job.Poured(), mode))
  }

  /** The whole of it done. */
  predicate Complete(job: Job, s: Disk, writable: bool) {
    && Verified(job.content, job.sums)
    && (!job.script.Place? ==> PouredInto(job, s, job.PouredFinal()))
    && (job.script.Place? ==> job.target in s && s[job.target] == File(job.content, job.Final()))
    && (job.script == Place(true) ==> writable)
  }

  lemma VerifiedIs(job: Job)
    ensures Verified(job.content, job.sums) <==> Ascii(Crc.PosixCksum(job.content)) == Shell.Captured(job.sums)
  {
  }

  /** `chmod -- mode path` */
  function Chmod(s: Disk, path: string, mode: Mode): Disk {
    if path in s && s[path].File? then s[path := s[path].(mode := mode)] else s
  }

  /** `mv -f -- from path`, within one filesystem */
  function Rename(s: Disk, from: string, path: string): Disk {
    if from in s then (s - {from})[path := s[from]] else s
  }

  /** A shell's `>` or `>>` into `path`, and the bytes it then holds. */
  function Poured(s: Disk, path: string, bytes: Bytes, umask: Mode): Disk {
    if path !in s then s[path := File(bytes, PLAIN & !umask)]
    else if s[path].File? then s[path := s[path].(bytes := bytes)]
    else s
  }

  /** `chmod -- +x path` */
  function Executable(s: Disk, path: string, umask: Mode): Disk {
    if path in s && s[path].File? then s[path := s[path].(mode := s[path].mode | (EXECUTE & !umask))] else s
  }

  predicate Distinct(job: Job) {
    && job.target !in job.area.Paths() && job.area.staged != job.area.expected
    && job.area.staged != job.area.directory && job.area.expected != job.area.directory
  }

  lemma ChmodIsSound(job: Job, s: Disk, mode: Mode)
    requires Sound(job, s) && Ready(job, s) && Verified(job.content, job.sums)
    ensures Sound(job, Chmod(s, job.area.staged, mode))
    ensures var after := Chmod(s, job.area.staged, mode);
            job.area.staged in after && after[job.area.staged] == File(job.content, mode)
  {
    hide Verified;
  }

  lemma RenameIsSound(job: Job, s: Disk)
    requires Sound(job, s) && Verified(job.content, job.sums) && job.script.Place? && Distinct(job) && Removed(job.before, job.area)
    requires job.area.staged in s && s[job.area.staged] == File(job.content, job.Given())
    ensures Sound(job, Rename(s, job.area.staged, job.target))
    ensures var after := Rename(s, job.area.staged, job.target);
            job.target in after && after[job.target] == File(job.content, job.Given())
  {
    hide Verified;
  }

  lemma PouredIsSound(job: Job, s: Disk, bytes: Bytes)
    requires Sound(job, s) && Verified(job.content, job.sums) && !job.script.Place? && Distinct(job)
    ensures Sound(job, Poured(s, job.target, bytes, job.umask))
  {
    hide Verified;
  }

  lemma PouredIsPoured(job: Job, s: Disk)
    requires SameAt(job.before, s, job.target)
    ensures PouredInto(job, Poured(s, job.target, job.Poured(), job.umask), job.PouredMode())
    ensures job.target in Poured(s, job.target, job.Poured(), job.umask)
  {
  }

  lemma ExecutableIsSound(job: Job, s: Disk)
    requires Sound(job, s) && Verified(job.content, job.sums) && job.executable && Distinct(job)
    requires job.script.Place? ==> job.target in s && s[job.target] == File(job.content, job.Given())
    requires !job.script.Place? ==> PouredInto(job, s, job.PouredMode())
    ensures var after := Executable(s, job.target, job.umask);
            && Sound(job, after)
            && (!job.script.Place? ==> PouredInto(job, after, job.PouredFinal()))
            && (job.script.Place? ==> job.target in after && after[job.target] == File(job.content, job.Final()))
  {
    hide Verified;
  }

  /** The disk differs from `before` in the area alone, which holds what was put there. */
  predicate StagedOn(before: Disk, s: Disk, area: Area) {
    Kept(before, s, area.Paths()) && Formed(before, s, area, false)
  }

  lemma StagedUpdate(before: Disk, s: Disk, area: Area, path: string, node: Node)
    requires StagedOn(before, s, area) && (path == area.staged || path == area.expected) && area.directory != path && Guarded(node)
    requires path !in before
    ensures StagedOn(before, s[path := node], area)
  {
  }

  // ----- what a write promises -----

  /** A checksum's text is captured as it is. */
  lemma SumCaptured(data: Bytes)
    ensures Shell.Captured(Ascii(Crc.PosixCksum(data))) == Ascii(Crc.PosixCksum(data))
    ensures forall i :: 0 <= i < |Crc.PosixCksum(data)| ==> Crc.PosixCksum(data)[i] as int < 128
  {
    var text := Crc.PosixCksum(data);
    assert forall i :: 0 <= i < |text| ==> '0' <= text[i] <= '9' || text[i] == ' ';
    var output := Ascii(text);
    forall i | 0 <= i < |output| ensures output[i] != 0 && output[i] != 10 {
      assert output[i] == text[i] as int;
    }
    Shell.CapturedExactly(output);
  }

  /** The length and the checksum of `data`. */
  predicate Matches(content: Bytes, data: Bytes) {
    |content| == |data| && Crc.PosixCrc(content) == Crc.PosixCrc(data)
  }

  /** Content is verified against the checksum of `data` exactly when it has its length and its CRC. */
  lemma VerifiedExactly(content: Bytes, data: Bytes)
    ensures Verified(content, SumOf(data)) <==> Matches(content, data)
  {
    SumCaptured(data);
    SumCaptured(content);
    if Verified(content, SumOf(data)) {
      AsciiInjective(Crc.PosixCksum(content), Crc.PosixCksum(data));
      TwoDecimals(Crc.PosixCrc(content), |content|, Crc.PosixCrc(data), |data|);
    }
  }

  /** A file with the length and the checksum of `data`; `exact`, with its bytes. */
  predicate Like(s: Disk, path: string, data: Bytes, exact: bool) {
    path in s && s[path].File? && Matches(s[path].bytes, data) && (exact ==> s[path].bytes == data)
  }

  /** All there was but `target` is as it was. */
  predicate KeepsOthers(before: Disk, s: Disk, target: string) {
    forall p :: p in before && p != target ==> SameAt(before, s, p)
  }

  lemma SoundKeepsOthers(job: Job, s: Disk)
    requires Sound(job, s)
    ensures KeepsOthers(job.before, s, job.target)
  {
    hide Changed, Verified;
  }

  predicate Whole(before: Disk, s: Disk, target: string, data: Bytes, exact: bool) {
    SameAt(before, s, target) || Like(s, target, data, exact)
  }

  /** What was found staged, where the storage keeps the checksum: it is verified exactly when it matches. */
  lemma SentIsVerified(job: Job, w: Weather, data: Bytes)
    requires Sent(w, job, data) && Keeps(w, SumOf(data))
    ensures Verified(job.content, job.sums) ==> Matches(job.content, data) && (Keeps(w, data) ==> job.content == data)
    ensures job.sums != [] && Matches(job.content, data) ==> Verified(job.content, job.sums)
  {
    hide Verified;
    if job.sums == [] {
      NothingIsUnverified(job.content);
    } else {
      VerifiedExactly(job.content, data);
    }
  }

  /** Where the storage keeps what it is sent, what was found staged is verified. */
  lemma FairIsVerified(job: Job, w: Weather, from: nat, data: Bytes)
    requires Fair(w, from) && StoredAs(w, job.content, data) && StoredAs(w, job.sums, SumOf(data))
    ensures Verified(job.content, job.sums)
  {
    hide Verified;
    VerifiedExactly(data, data);
  }

  /** No checksum at all verifies nothing. */
  lemma NothingIsUnverified(content: Bytes)
    ensures !Verified(content, [])
  {
    assert |Ascii(Crc.PosixCksum(content))| > 0;
    Shell.CapturedExactly([]);
  }

  /** At every moment of an overwrite placed by a rename, whatever failed and however the link went, the
      target is as it was, or a file with the length and the checksum of `data`. */
  lemma WholeOrNotAtAll(job: Job, w: Weather, s: Disk, data: Bytes)
    requires Sound(job, s) && Sent(w, job, data) && job.script.Place? && Keeps(w, SumOf(data))
    ensures Whole(job.before, s, job.target, data, Keeps(w, data))
  {
    hide Verified, Sent, Keeps, Matches, Kept, Formed;
    SentIsVerified(job, w, data);
  }

  /** For any placement: content the storage did not keep to its length and its checksum leaves the target as
      it was, at every moment. */
  lemma CorruptIsUntouched(job: Job, w: Weather, s: Disk, data: Bytes)
    requires Sound(job, s) && Sent(w, job, data) && Keeps(w, SumOf(data)) && !Matches(job.content, data)
    ensures SameAt(job.before, s, job.target)
  {
    hide Verified, Sent, Keeps, Matches, Kept, Formed;
    SentIsVerified(job, w, data);
  }

  /** The bits an overwritten file keeps, or a new one gets. */
  function Bits(before: Disk, target: string, umask: Mode): Mode {
    if target in before && before[target].File? then before[target].mode & PERMISSIONS & !SET_ID else PLAIN & !umask
  }

  /** Replaced whole: `data`'s, with the old file's permission bits but setuid and setgid, or a new one's, and
      the execute bits if asked for; and the user could write the file it replaced. */
  predicate Replaced(before: Disk, s: Disk, landing: Landing, data: Bytes, exact: bool, executable: bool, w: Weather) {
    && landing.Landing? && Like(s, landing.target, data, exact)
    && s[landing.target].mode == (if executable then Bits(before, landing.target, w.umask) | (EXECUTE & !w.umask)
                                  else Bits(before, landing.target, w.umask))
    && (landing.target in before ==> before[landing.target].File? && w.writable)
  }

  /** Exit 0 of an overwrite placed by a rename. */
  lemma ExitZeroMeans(job: Job, w: Weather, path: string, s: Disk, data: Bytes, append: bool, executable: bool,
                      refusal: Option<Errno>, end: End)
    requires Complete(job, s, w.writable) && Sent(w, job, data) && Keeps(w, SumOf(data)) && end == Exit(0)
    requires var landing := Staging(job.before, w.normal, path);
             Meant(job, w, landing, path, append, executable, refusal, end) && ByRename(append, landing, refusal)
    ensures Replaced(job.before, s, Staging(job.before, w.normal, path), data, Keeps(w, data), executable, w)
  {
    hide Verified, Dirname, Staging, Sent, Keeps, Matches;
    SentIsVerified(job, w, data);
    LandingIs(job.before, w.normal, path);
  }

  lemma GoneWell(w: Weather, t: nat, file: bool)
    requires Goes(w, t, file)
    ensures Fair(w, t + 2)
  {
  }

  /** Where the storage keeps what it is sent, exit 0 of any write leaves the bytes it was given. */
  lemma DeliveredAt(job: Job, w: Weather, from: nat, path: string, s: Disk, data: Bytes, append: bool, executable: bool,
                    refusal: Option<Errno>)
    requires Complete(job, s, w.writable) && Sent(w, job, data) && Fair(w, from)
    requires Meant(job, w, Staging(job.before, w.normal, path), path, append, executable, refusal, Exit(0))
    ensures Delivered(job.before, s, job.target, data, append)
  {
    hide Verified, Sent, Matches, Staging;
    SentIsVerified(job, w, data);
    LandingIs(job.before, w.normal, path);
    assert [] + data == data;
  }

  /** Exit 0 of an append, or of a write through a file: the bytes are added to the file's, or are the file's. */
  lemma PouredMeans(job: Job, w: Weather, s: Disk, data: Bytes)
    requires Complete(job, s, w.writable) && Sent(w, job, data) && Keeps(w, SumOf(data)) && Keeps(w, data)
    requires !job.script.Place? && (job.target in job.before ==> job.before[job.target].File?)
    ensures job.target in s && s[job.target].File?
    ensures s[job.target].bytes == (if job.script.Append? then FileAt(job.before, job.target) else []) + data
    ensures s[job.target].mode == job.PouredFinal()
  {
    hide Verified, Sent, Keeps, Matches;
    SentIsVerified(job, w, data);
  }
}
