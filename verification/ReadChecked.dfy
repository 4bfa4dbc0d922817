/** The read of the site's files for every account (`_read_for_everyone` in site.py), on a file system whose
    names anyone may bind anew between two of its calls: what is read is what was checked. */
module ReadChecked {
  import opened Bytes
  import opened PathWalk
  import opened Paths
  import opened Site

  datatype Listed = Entries(names: seq<string>) | NotListed(errno: Errno)
  datatype EntryKind = IsFile | NoFile | NotAsked(errno: Errno)
  datatype Access = Granted | Denied(errno: Errno)

  /** Every answer a call may get: the names' bindings, a directory's listing, a listed entry's own idea of
      its kind (`entry.is_file`), and whether opening an inode or reading it works. */
  datatype Host = Host(sys: System, listing: (nat, Inode) -> Listed, kind: (nat, Inode, string) -> EntryKind,
                       opens: (nat, Inode) -> Access, readable: (nat, Inode) -> Access)

  /** How names and contents become text: `os.fsencode`, a name decoded, a content decoded and stripped, and
      an error's words. */
  datatype Texts = Texts(encode: string -> Bytes, name: Bytes -> string, content: Bytes -> string, why: Errno -> string)

  const EISDIR: Errno := Errno(21)

  // ----- one entry -----

  datatype FileRead = Skip | Got(file: SiteFile) | Bad(detail: string)

  function NameOf(texts: Texts, entry: string): string {
    texts.name(texts.encode(entry))
  }

  function Complaint(texts: Texts, entry: string, detail: string): string {
    NameOf(texts, entry) + ": " + detail
  }

  /** What an entry's descriptor gives: only a regular file is read, and only when every account may. A
      directory cannot be made a stream. */
  function ReadOpened(host: Host, texts: Texts, t: nat, entry: string, i: Inode): FileRead {
    match host.sys.inodes(i).kind
    case Symlink(_) => Skip
    case Directory => Bad(Complaint(texts, entry, texts.why(EISDIR)))
    case Special => Skip
    case Regular(content) =>
      if !EveryoneMay(host.sys.inodes(i), READ) then Bad(Complaint(texts, entry, NOT_FOR_EVERYONE))
      else if host.readable(t, i).Denied? then Bad(Complaint(texts, entry, texts.why(host.readable(t, i).errno)))
      else Got(SiteFile(NameOf(texts, entry), texts.content(content), texts.encode(entry)))
  }

  /** `os.open(entry.name, _FILE, dir_fd=listing)`: a link is not followed. */
  function OpenFile(host: Host, t: nat, dir: Inode, entry: string): Lookup {
    match host.sys.names(t, dir, entry)
    case Fails(e) => Fails(e)
    case Found(i) =>
      if host.sys.inodes(i).kind.Symlink? then Fails(ELOOP)
      else if host.opens(t, i).Denied? then Fails(host.opens(t, i).errno)
      else Found(i)
  }

  /** An entry's calls are the `t`-th (its kind), the next (the open) and the one after (the read). */
  function ReadEntry(host: Host, texts: Texts, t: nat, dir: Inode, entry: string): FileRead {
    if !Eligible(NameOf(texts, entry)) then Skip
    else
      match host.kind(t, dir, entry)
      case NotAsked(e) => Bad(Complaint(texts, entry, texts.why(e)))
      case NoFile => Skip
      case IsFile =>
        match OpenFile(host, t + 1, dir, entry)
        case Fails(e) => if e == ELOOP then Skip else Bad(Complaint(texts, entry, texts.why(e)))
        case Found(i) => ReadOpened(host, texts, t + 2, entry, i)
  }

  // ----- the listing -----

  datatype Gathered = Files(files: seq<SiteFile>) | Abandoned(detail: string)

  /** The entries in the order listed, three calls each; the first bad one ends the read. */
  function Gather(host: Host, texts: Texts, t: nat, dir: Inode, entries: seq<string>): Gathered {
    if entries == [] then Files([])
    else
      var last := |entries| - 1;
      var front := Gather(host, texts, t, dir, entries[..last]);
      if front.Abandoned? then front
      else
        match ReadEntry(host, texts, t + 3 * last, dir, entries[last])
        case Skip => front
        case Got(f) => Files(front.files + [f])
        case Bad(detail) => Abandoned(detail)
  }

  function NotReached(texts: Texts, where: string, errno: Errno): SiteContext {
    if errno == ENOENT then Missing(where) else Unreadable(where, texts.why(errno))
  }

  /** The read, once the directory has been reached: it is opened, listed and only then judged. */
  function ReadReached(host: Host, texts: Texts, where: string, trip: Trip): SiteContext
    requires trip.Valid()
  {
    var dir := trip.Here();
    if host.opens(trip.t, dir).Denied? then NotReached(texts, where, host.opens(trip.t, dir).errno)
    else
      match host.listing(trip.t + 1, dir)
      case NotListed(e) => NotReached(texts, where, e)
      case Entries(names) =>
        if !AllSearchable(host.sys, trip.looked) || !EveryoneMay(host.sys.inodes(dir), LIST) then
          Unreadable(where, NOT_FOR_EVERYONE)
        else
          match Gather(host, texts, trip.t + 2, dir, names)
          case Abandoned(detail) => Unreadable(where, detail)
          case Files(files) => FoundFiles(files, where)
  }

  function ReadContext(host: Host, texts: Texts, where: string, path: string): SiteContext {
    match Walked(host.sys, path)
    case Raised(e) => NotReached(texts, where, e)
    case Arrived(trip) => ReadReached(host, texts, where, trip)
  }

  /** `_read_for_everyone` */
  method ReadForEveryone(host: Host, texts: Texts, where: string, cwd: string, path: string) returns (context: SiteContext)
    ensures context == ReadContext(host, texts, where, Join(cwd, path))
  {
    hide Walk, Split, Join, ReadEntry, Eligible, FoundFiles, Unreadable, NotReached, EveryoneMay, AllSearchable;
    var walker, reached, raised, errno := Reach(host.sys, cwd, path);
    if raised {
      return NotReached(texts, where, errno);
    }
    var dir, t := walker.held[reached], walker.t;
    var access := host.opens(t, dir);
    if access.Denied? {
      return NotReached(texts, where, access.errno);
    }
    var listed := host.listing(t + 1, dir);
    if listed.NotListed? {
      return NotReached(texts, where, listed.errno);
    }
    if !(walker.everyone && EveryoneMay(host.sys.inodes(dir), LIST)) {
      return Unreadable(where, NOT_FOR_EVERYONE);
    }
    var files, entries := [], listed.names;
    for i := 0 to |entries|
      invariant Gather(host, texts, t + 2, dir, entries[..i]) == Files(files)
    {
      assert entries[..i + 1][..i] == entries[..i];
      var read := ReadEntry(host, texts, t + 2 + 3 * i, dir, entries[i]);
      match read {
        case Skip =>
        case Got(f) =>
          files := files + [f];
        case Bad(detail) =>
          GatherStops(host, texts, t + 2, dir, entries, i + 1);
          return Unreadable(where, detail);
      }
    }
    assert entries[..|entries|] == entries;
    context := FoundFiles(files, where);
  }

  lemma {:induction false} GatherStops(host: Host, texts: Texts, t: nat, dir: Inode, entries: seq<string>, i: nat)
    requires i <= |entries| && Gather(host, texts, t, dir, entries[..i]).Abandoned?
    ensures Gather(host, texts, t, dir, entries) == Gather(host, texts, t, dir, entries[..i])
  {
    hide ReadEntry;
    if i == |entries| {
      assert entries[..i] == entries;
    } else {
      var front := entries[..|entries| - 1];
      assert front[..i] == entries[..i];
      GatherStops(host, texts, t, dir, front, i);
    }
  }

  // ----- when a read fails -----

  /** The directory was not reached, opened or listed, for this reason. */
  predicate StopsWith(host: Host, path: string, e: Errno) {
    var walk := Walked(host.sys, path);
    || walk == Raised(e)
    || (walk.Arrived? && host.opens(walk.trip.t, walk.trip.Here()) == Denied(e))
    || (walk.Arrived? && host.opens(walk.trip.t, walk.trip.Here()).Granted?
        && host.listing(walk.trip.t + 1, walk.trip.Here()) == NotListed(e))
  }

  /** It was listed: the entries, in the order listed. */
  predicate Lists(host: Host, path: string, names: seq<string>) {
    var walk := Walked(host.sys, path);
    && walk.Arrived? && host.opens(walk.trip.t, walk.trip.Here()).Granted?
    && host.listing(walk.trip.t + 1, walk.trip.Here()) == Entries(names)
  }

  /** Every account may search each directory the walk looked in, and list the one it reached. */
  predicate ForEveryone(host: Host, path: string) {
    var walk := Walked(host.sys, path);
    && walk.Arrived? && EveryoneMay(host.sys.inodes(walk.trip.Here()), LIST)
    && forall d :: d in walk.trip.looked ==> EveryoneMay(host.sys.inodes(d), SEARCH)
  }

  /** Of an entry whose calls are the `t`-th and the next two: the words, if its answers end the read. Its kind could
      not be asked; it could not be opened, and not because it is a link; it is a directory now; some account may
      not read it; or its content could not be read. */
  ghost predicate EndsRead(host: Host, texts: Texts, t: nat, dir: Inode, entry: string, words: string) {
    && Eligible(NameOf(texts, entry))
    && match host.kind(t, dir, entry)
       case NotAsked(e) => words == texts.why(e)
       case NoFile => false
       case IsFile =>
         match host.sys.names(t + 1, dir, entry)
         case Fails(e) => e != ELOOP && words == texts.why(e)
         case Found(i) =>
           && !host.sys.inodes(i).kind.Symlink?
           && (if host.opens(t + 1, i).Denied? then host.opens(t + 1, i).errno != ELOOP && words == texts.why(host.opens(t + 1, i).errno)
               else
                 || (host.sys.inodes(i).kind.Directory? && words == texts.why(EISDIR))
                 || (host.sys.inodes(i).kind.Regular? && !EveryoneMay(host.sys.inodes(i), READ) && words == NOT_FOR_EVERYONE)
                 || (host.sys.inodes(i).kind.Regular? && EveryoneMay(host.sys.inodes(i), READ) && host.readable(t + 2, i).Denied?
                     && words == texts.why(host.readable(t + 2, i).errno)))
  }

  /** The `k`-th entry listed ends the read, with these words. */
  ghost predicate BadAt(host: Host, texts: Texts, path: string, names: seq<string>, k: nat, words: string)
    requires Walked(host.sys, path).Arrived? && k < |names|
  {
    var trip := Walked(host.sys, path).trip;
    EndsRead(host, texts, trip.t + 2 + 3 * k, trip.Here(), names[k], words)
  }

  lemma EntryEndsRead(host: Host, texts: Texts, t: nat, dir: Inode, entry: string, words: string)
    ensures EndsRead(host, texts, t, dir, entry, words) ==> ReadEntry(host, texts, t, dir, entry) == Bad(NameOf(texts, entry) + ": " + words)
  {
    hide Eligible, EveryoneMay;
  }

  lemma BadEntryEnds(host: Host, texts: Texts, t: nat, dir: Inode, entry: string) returns (words: string)
    ensures ReadEntry(host, texts, t, dir, entry).Bad? ==> EndsRead(host, texts, t, dir, entry, words)
  {
    hide Eligible, EveryoneMay;
    words := "";
    if ReadEntry(host, texts, t, dir, entry).Bad? {
      if host.kind(t, dir, entry).NotAsked? {
        words := texts.why(host.kind(t, dir, entry).errno);
      } else {
        match OpenFile(host, t + 1, dir, entry)
        case Fails(e) => words := texts.why(e);
        case Found(i) =>
          words := if host.sys.inodes(i).kind.Directory? then texts.why(EISDIR)
                   else if !EveryoneMay(host.sys.inodes(i), READ) then NOT_FOR_EVERYONE
                   else texts.why(host.readable(t + 2, i).errno);
      }
    }
  }

  /** A directory that is not there is missing, which is no failure; one that could not be reached, opened or
      listed for any other reason is a failed read, in that reason's words. */
  lemma StoppedRead(host: Host, texts: Texts, where: string, path: string, e: Errno)
    requires StopsWith(host, path, e)
    ensures var context := ReadContext(host, texts, where, path);
            && context.files == []
            && (e == ENOENT ==> !context.failed && context.reason == MissingReason(where))
            && (e != ENOENT ==> context.failed && context.reason == UnreadableReason(where, texts.why(e)))
  {
    hide Walk, Split, MissingReason, UnreadableReason, EveryoneMay, AllSearchable;
  }

  /** One that some account may not reach or list is a failed read, whatever it holds. */
  lemma ClosedRead(host: Host, texts: Texts, where: string, path: string, names: seq<string>)
    requires Lists(host, path, names) && !ForEveryone(host, path)
    ensures ReadContext(host, texts, where, path) == SiteContext([], UnreadableReason(where, NOT_FOR_EVERYONE), true)
  {
    hide Walk, Split, UnreadableReason, EveryoneMay;
  }

  /** The first entry that ends the read ends it, named with its words. */
  lemma BadRead(host: Host, texts: Texts, where: string, path: string, names: seq<string>, k: nat, words: string)
    requires Lists(host, path, names) && ForEveryone(host, path) && k < |names| && BadAt(host, texts, path, names, k, words)
    requires forall j: nat, w :: j < k ==> !BadAt(host, texts, path, names, j, w)
    ensures ReadContext(host, texts, where, path)
         == SiteContext([], UnreadableReason(where, NameOf(texts, names[k]) + ": " + words), true)
  {
    hide Walk, Split, UnreadableReason, EveryoneMay, ReadEntry, EndsRead, Gather, ForEveryone, ReadContext, Lists;
    ReadListed(host, texts, where, path, names);
    var trip := Walked(host.sys, path).trip;
    var dir, t := trip.Here(), trip.t + 2;
    forall j: nat | j < k ensures !ReadEntry(host, texts, t + 3 * j, dir, names[j]).Bad? {
      var w := BadEntryEnds(host, texts, t + 3 * j, dir, names[j]);
      assert !BadAt(host, texts, path, names, j, w);
    }
    EntryEndsRead(host, texts, t + 3 * k, dir, names[k], words);
    GatherGoesOn(host, texts, t, dir, names[..k]);
    GatherEnds(host, texts, t, dir, names, k);
    GatherStops(host, texts, t, dir, names, k + 1);
  }

  /** Once every account may reach and list it, a directory's entries are what is read. */
  lemma ReadListed(host: Host, texts: Texts, where: string, path: string, names: seq<string>)
    requires Lists(host, path, names) && ForEveryone(host, path)
    ensures Walked(host.sys, path).Arrived?
    ensures var trip := Walked(host.sys, path).trip;
            ReadContext(host, texts, where, path) == (
              match Gather(host, texts, trip.t + 2, trip.Here(), names)
              case Abandoned(detail) => SiteContext([], UnreadableReason(where, detail), true)
              case Files(files) => FoundFiles(files, where))
  {
    hide Walk, Split, UnreadableReason, EveryoneMay, Gather, FoundFiles;
  }

  lemma {:induction false} GatherGoesOn(host: Host, texts: Texts, t: nat, dir: Inode, entries: seq<string>)
    requires forall j: nat :: j < |entries| ==> !ReadEntry(host, texts, t + 3 * j, dir, entries[j]).Bad?
    ensures Gather(host, texts, t, dir, entries).Files?
  {
    hide ReadEntry;
    if entries != [] {
      GatherGoesOn(host, texts, t, dir, entries[..|entries| - 1]);
    }
  }

  lemma GatherEnds(host: Host, texts: Texts, t: nat, dir: Inode, entries: seq<string>, k: nat)
    requires k < |entries| && Gather(host, texts, t, dir, entries[..k]).Files?
    requires ReadEntry(host, texts, t + 3 * k, dir, entries[k]).Bad?
    ensures Gather(host, texts, t, dir, entries[..k + 1]) == Abandoned(ReadEntry(host, texts, t + 3 * k, dir, entries[k]).detail)
  {
    hide ReadEntry;
    assert entries[..k + 1][..k] == entries[..k];
  }

  /** A read is failed exactly when it stopped for another reason than that the directory is not there, when some
      account may not reach or list it, or when an entry ends it. */
  lemma FailedExactly(host: Host, texts: Texts, where: string, path: string)
    ensures ReadContext(host, texts, where, path).failed
       <==> || (exists e :: StopsWith(host, path, e) && e != ENOENT)
            || (exists names :: Lists(host, path, names) && !ForEveryone(host, path))
            || (exists names, k: nat, words :: Lists(host, path, names) && ForEveryone(host, path) && k < |names|
                                              && BadAt(host, texts, path, names, k, words))
  {
    hide Walk, Split, UnreadableReason, ForEveryone, ReadContext, BadAt, Lists, StopsWith;
    OneEnd(host, path);
    if e :| StopsWith(host, path, e) {
      StoppedRead(host, texts, where, path, e);
    } else {
      var names :| Lists(host, path, names);
      if !ForEveryone(host, path) {
        ClosedRead(host, texts, where, path, names);
      } else {
        ListedFailsExactly(host, texts, where, path, names);
      }
    }
  }

  /** A read stops for one reason, or lists one way. */
  lemma OneEnd(host: Host, path: string)
    ensures (exists e :: StopsWith(host, path, e)) || (exists names :: Lists(host, path, names))
    ensures forall e, e' :: StopsWith(host, path, e) && StopsWith(host, path, e') ==> e == e'
    ensures forall names, names' :: Lists(host, path, names) && Lists(host, path, names') ==> names == names'
    ensures forall e, names :: StopsWith(host, path, e) ==> !Lists(host, path, names)
    ensures ForEveryone(host, path) ==> Walked(host.sys, path).Arrived?
  {
    hide Walk, Split, EveryoneMay;
    var walk := Walked(host.sys, path);
    if walk.Raised? {
      assert StopsWith(host, path, walk.errno);
    } else {
      var access, listed := host.opens(walk.trip.t, walk.trip.Here()), host.listing(walk.trip.t + 1, walk.trip.Here());
      if access.Denied? {
        assert StopsWith(host, path, access.errno);
      } else if listed.NotListed? {
        assert StopsWith(host, path, listed.errno);
      } else {
        assert Lists(host, path, listed.names);
      }
    }
  }

  lemma ListedFailsExactly(host: Host, texts: Texts, where: string, path: string, names: seq<string>)
    requires Lists(host, path, names) && ForEveryone(host, path)
    ensures ReadContext(host, texts, where, path).failed
       <==> exists k: nat, words :: k < |names| && BadAt(host, texts, path, names, k, words)
  {
    hide Walk, Split, UnreadableReason, EveryoneMay, ReadEntry, EndsRead, Gather, FoundFiles, ReadContext;
    ReadListed(host, texts, where, path, names);
    var trip := Walked(host.sys, path).trip;
    var dir, t := trip.Here(), trip.t + 2;
    if k: nat :| k < |names| && ReadEntry(host, texts, t + 3 * k, dir, names[k]).Bad? {
      var words := BadEntryEnds(host, texts, t + 3 * k, dir, names[k]);
      assert BadAt(host, texts, path, names, k, words);
      GatherBad(host, texts, t, dir, names, k);
    } else {
      forall k: nat, words | k < |names| ensures !BadAt(host, texts, path, names, k, words) {
        EntryEndsRead(host, texts, t + 3 * k, dir, names[k], words);
      }
      GatherGoesOn(host, texts, t, dir, names);
      FoundIs(Gather(host, texts, t, dir, names).files, where);
    }
  }

  lemma {:induction false} GatherBad(host: Host, texts: Texts, t: nat, dir: Inode, entries: seq<string>, k: nat)
    requires k < |entries| && ReadEntry(host, texts, t + 3 * k, dir, entries[k]).Bad?
    ensures Gather(host, texts, t, dir, entries).Abandoned?
  {
    hide ReadEntry;
    if k < |entries| - 1 {
      GatherBad(host, texts, t, dir, entries[..|entries| - 1], k);
    }
  }

  // ----- what is read is what was checked -----

  /** Each directory of the route but the last was bound, at some call, in the one before it. */
  ghost predicate Linked(sys: System, route: seq<Inode>) {
    && route != [] && route[0] == sys.root
    && forall k :: 0 <= k < |route| - 1 ==> BoundIn(sys, route[k], route[k + 1])
  }

  ghost predicate BoundIn(sys: System, dir: Inode, inode: Inode) {
    exists t, part :: sys.names(t, dir, part) == Found(inode)
  }

  /** Every directory of the route but the last was searched. */
  predicate Covered(trip: Trip)
    requires trip.Valid()
  {
    forall k :: 0 <= k < |trip.route| - 1 ==> trip.route[k] in trip.looked
  }

  lemma {:induction false} RouteWasSearched(sys: System, trip: Trip, parts: seq<string>)
    requires trip.Valid() && Linked(sys, trip.route) && Covered(trip)
    ensures Walk(sys, trip, parts).Arrived? ==> Linked(sys, Walk(sys, trip, parts).trip.route) && Covered(Walk(sys, trip, parts).trip)
    decreases MAX_LINKS - trip.links, |parts|
  {
    hide Split, Absolute, BoundIn, Walk, Open;
    if parts == [] {
      WalkEnd(sys, trip);
    } else {
      var part, rest := parts[0], parts[1..];
      assert parts == [part] + rest;
      WalkStep(sys, trip, part, rest);
      if part == "" || part == "." {
        RouteWasSearched(sys, trip, rest);
      } else if part == ".." {
        RouteWasSearched(sys, Seen(trip).(route := Up(trip.route)), rest);
      } else {
        var step := Open(sys, trip.t, trip.Here(), part);
        if step.Into? {
          IntoIsBound(sys, trip.t, trip.Here(), part);
          RouteWasSearched(sys, Seen(trip).(route := trip.route + [step.inode], t := trip.t + 2), rest);
        } else if step.Follow? && trip.links + 1 <= MAX_LINKS {
          var from := Jump(sys, trip, step.target);
          RouteWasSearched(sys, from, Split(step.target));
          var led := Walk(sys, from, Split(step.target));
          if led.Arrived? {
            RouteWasSearched(sys, led.trip, rest);
          }
        }
      }
    }
  }

  lemma IntoIsBound(sys: System, t: nat, dir: Inode, part: string)
    ensures Open(sys, t, dir, part).Into? ==>
              BoundIn(sys, dir, Open(sys, t, dir, part).inode) && sys.inodes(Open(sys, t, dir, part).inode).kind.Directory?
  {
  }

  /** `f` is a regular file's content, which every account may read, under a name it was bound to in `dir`. */
  ghost predicate ReadFrom(host: Host, texts: Texts, dir: Inode, f: SiteFile, t: nat, entry: string, i: Inode) {
    && host.sys.names(t, dir, entry) == Found(i)
    && host.sys.inodes(i).kind.Regular? && EveryoneMay(host.sys.inodes(i), READ)
    && f == SiteFile(NameOf(texts, entry), texts.content(host.sys.inodes(i).kind.content), texts.encode(entry))
    && Eligible(f.name)
  }

  /** Under one of the names `listed`. */
  ghost predicate WasChecked(host: Host, texts: Texts, dir: Inode, listed: seq<string>, f: SiteFile) {
    exists t, entry, i :: entry in listed && ReadFrom(host, texts, dir, f, t, entry, i)
  }

  lemma EntryWasChecked(host: Host, texts: Texts, t: nat, dir: Inode, listed: seq<string>, entry: string)
    requires entry in listed
    ensures ReadEntry(host, texts, t, dir, entry).Got? ==>
              WasChecked(host, texts, dir, listed, ReadEntry(host, texts, t, dir, entry).file)
  {
    hide Eligible;
    var read := ReadEntry(host, texts, t, dir, entry);
    if read.Got? {
      var i := OpenFile(host, t + 1, dir, entry).inode;
      assert entry in listed && ReadFrom(host, texts, dir, read.file, t + 1, entry, i);
    }
  }

  lemma {:induction false} GatheredWasChecked(host: Host, texts: Texts, t: nat, dir: Inode, entries: seq<string>,
                                              listed: seq<string>, f: SiteFile)
    requires Gather(host, texts, t, dir, entries).Files? && f in Gather(host, texts, t, dir, entries).files
    requires entries <= listed
    ensures WasChecked(host, texts, dir, listed, f)
  {
    hide ReadEntry, WasChecked;
    var last := |entries| - 1;
    assert entries[last] in listed;
    EntryWasChecked(host, texts, t + 3 * last, dir, listed, entries[last]);
    if f in Gather(host, texts, t, dir, entries[..last]).files {
      GatheredWasChecked(host, texts, t, dir, entries[..last], listed, f);
    }
  }

  /** Whatever names are bound anew between the calls, every file served is the content of a regular file
      every account may read, bound, under a name it listed, in a directory every account may list, reached through
      directories every account may search. */
  lemma ServedWasChecked(host: Host, texts: Texts, where: string, path: string, f: SiteFile)
    requires f in ReadContext(host, texts, where, path).files
    ensures Walked(host.sys, path).Arrived?
    ensures var route := Walked(host.sys, path).trip.route;
            && Linked(host.sys, route)
            && (forall k :: 0 <= k < |route| - 1 ==> EveryoneMay(host.sys.inodes(route[k]), SEARCH))
            && EveryoneMay(host.sys.inodes(route[|route| - 1]), LIST)
            && var listed := host.listing(Walked(host.sys, path).trip.t + 1, route[|route| - 1]);
               listed.Entries? && WasChecked(host, texts, route[|route| - 1], listed.names, f)
  {
    hide Walk, Split, Gather, Linked, WasChecked, Blank;
    assert Linked(host.sys, [host.sys.root]) by { RootIsLinked(host.sys); }
    RouteWasSearched(host.sys, Setout(host.sys), Split(path));
    var trip := Walked(host.sys, path).trip;
    var names := host.listing(trip.t + 1, trip.Here()).names;
    FromFiles(Gather(host, texts, trip.t + 2, trip.Here(), names).files, f);
    GatheredWasChecked(host, texts, trip.t + 2, trip.Here(), names, names, f);
  }

  lemma RootIsLinked(sys: System)
    ensures Linked(sys, [sys.root])
  {
  }

  // ----- and nothing else is left out -----

  /** A listing gathered whole: no entry was bad, and the files are those read, in the order listed. */
  lemma {:induction false} GatheredWhole(host: Host, texts: Texts, t: nat, dir: Inode, entries: seq<string>, k: nat)
    requires Gather(host, texts, t, dir, entries).Files? && k < |entries|
    ensures !ReadEntry(host, texts, t + 3 * k, dir, entries[k]).Bad?
    ensures ReadEntry(host, texts, t + 3 * k, dir, entries[k]).Got? ==>
              ReadEntry(host, texts, t + 3 * k, dir, entries[k]).file in Gather(host, texts, t, dir, entries).files
  {
    hide ReadEntry;
    var last := |entries| - 1;
    if k < last {
      GatheredWhole(host, texts, t, dir, entries[..last], k);
    }
  }

  /** A read that does not fail leaves out no eligible regular file that its listing names: each that its
      open found was one every account may read, and is served unless it is blank. */
  lemma NothingIsLeftOut(host: Host, texts: Texts, where: string, path: string, trip: Trip, names: seq<string>, k: nat, i: Inode)
    requires Walked(host.sys, path) == Arrived(trip) && trip.Valid() && !ReadContext(host, texts, where, path).failed
    requires host.opens(trip.t, trip.Here()).Granted? && host.listing(trip.t + 1, trip.Here()) == Entries(names) && k < |names|
    requires Eligible(NameOf(texts, names[k])) && host.kind(trip.t + 2 + 3 * k, trip.Here(), names[k]).IsFile?
    requires OpenFile(host, trip.t + 3 + 3 * k, trip.Here(), names[k]) == Found(i) && host.sys.inodes(i).kind.Regular?
    ensures EveryoneMay(host.sys.inodes(i), READ)
    ensures var file := FileOf(host, texts, names[k], i); !Blank(file.text) ==> file in ReadContext(host, texts, where, path).files
  {
    hide Walk, Split, Gather, Eligible, Blank, AllSearchable, FoundFiles, ReadOpened, UnreadableReason, EveryoneMay, FileOf;
    var dir := trip.Here();
    var gathered := Gather(host, texts, trip.t + 2, dir, names);
    assert ReadContext(host, texts, where, path) == ReadReached(host, texts, where, trip);
    assert gathered.Files? && ReadContext(host, texts, where, path) == FoundFiles(gathered.files, where);
    GatheredWhole(host, texts, trip.t + 2, dir, names, k);
    OpenedRegular(host, texts, trip.t + 4 + 3 * k, names[k], i);
    var file := FileOf(host, texts, names[k], i);
    FoundIs(gathered.files, where);
    assert file in multiset(gathered.files);
    if !Blank(file.text) {
      assert file in multiset(FoundFiles(gathered.files, where).files);
    }
  }

  /** What a regular file's inode is served as, under an entry's name. */
  function FileOf(host: Host, texts: Texts, entry: string, i: Inode): SiteFile
    requires host.sys.inodes(i).kind.Regular?
  {
    SiteFile(NameOf(texts, entry), texts.content(host.sys.inodes(i).kind.content), texts.encode(entry))
  }

  lemma OpenedRegular(host: Host, texts: Texts, t: nat, entry: string, i: Inode)
    requires host.sys.inodes(i).kind.Regular? && !ReadOpened(host, texts, t, entry, i).Bad?
    ensures EveryoneMay(host.sys.inodes(i), READ)
    ensures ReadOpened(host, texts, t, entry, i).Got?
    ensures ReadOpened(host, texts, t, entry, i).file == FileOf(host, texts, entry, i)
  {
  }
}
