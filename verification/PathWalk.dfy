/** The directory walk of the read for every account (`_reach`, `_link` and `_everyone_may` in site.py),
    and pathname resolution as section 4.13 of IEEE Std 1003.1-2017, Base Definitions, has it. Names may be
    bound anew between any two system calls: the `t`-th call sees the bindings of `t`. */
module PathWalk {
  import opened Bytes
  import opened Paths

  type Inode = nat

  datatype Errno = ENOENT | EACCES | ENOTDIR | ELOOP | Errno(number: nat)

  datatype Kind = Directory | Symlink(target: string) | Regular(content: Bytes) | Special

  /** What an inode is: its kind, its mode bits, and whether it carries an ACL entry. */
  datatype Attributes = Attributes(kind: Kind, mode: bv16, acl: bool)

  datatype Lookup = Found(inode: Inode) | Fails(errno: Errno)

  datatype System = System(root: Inode, inodes: Inode -> Attributes, names: (nat, Inode, string) -> Lookup)

  const SEARCH: bv16 := 73   // 0o111
  const LIST: bv16 := 365    // 0o555
  const READ: bv16 := 292    // 0o444
  const MAX_LINKS: nat := 40

  /** `_everyone_may` */
  predicate EveryoneMay(a: Attributes, need: bv16) {
    a.mode & need == need && !a.acl
  }

  /** Owner, group and other, each by its own bit, and no ACL entry. */
  lemma EveryoneMayIs(a: Attributes)
    ensures EveryoneMay(a, SEARCH) <==> !a.acl && a.mode & 64 != 0 && a.mode & 8 != 0 && a.mode & 1 != 0
    ensures EveryoneMay(a, READ) <==> !a.acl && a.mode & 256 != 0 && a.mode & 32 != 0 && a.mode & 4 != 0
    ensures EveryoneMay(a, LIST) <==> EveryoneMay(a, READ) && EveryoneMay(a, SEARCH)
  {
  }

  predicate Searchable(sys: System, d: Inode) {
    EveryoneMay(sys.inodes(d), SEARCH)
  }

  /** Who may list may search. */
  lemma ListMeansSearch(a: Attributes)
    ensures EveryoneMay(a, LIST) ==> EveryoneMay(a, SEARCH) && EveryoneMay(a, READ)
  {
  }

  // ----- one component -----

  /** `os.open(part, _STEP, dir_fd=dir)`: a directory, and no link followed. */
  function OpenStep(sys: System, t: nat, dir: Inode, part: string): Lookup {
    match sys.names(t, dir, part)
    case Fails(e) => Fails(e)
    case Found(i) => if sys.inodes(i).kind.Directory? then Found(i) else Fails(ENOTDIR)
  }

  datatype Component = Into(inode: Inode) | Follow(target: string) | Stop(errno: Errno)

  /** A component opened, or else read as a link (`_link`); the two calls are the `t`-th and the next. */
  function Open(sys: System, t: nat, dir: Inode, part: string): Component {
    match OpenStep(sys, t, dir, part)
    case Found(i) => Into(i)
    case Fails(e) =>
      if e != ELOOP && e != ENOTDIR then Stop(e)
      else
        var again := sys.names(t + 1, dir, part);
        if again.Found? && sys.inodes(again.inode).kind.Symlink? then Follow(sys.inodes(again.inode).kind.target)
        else Stop(e)
  }

  /** A directory bound now is gone into; what is none, or a link, is followed if it is a link when it is read, one
      call later; anything else stops the walk with the reason it was not opened. */
  lemma OpenIs(sys: System, t: nat, dir: Inode, part: string)
    ensures var now, again := sys.names(t, dir, part), sys.names(t + 1, dir, part);
            && (now.Found? && sys.inodes(now.inode).kind.Directory? ==> Open(sys, t, dir, part) == Into(now.inode))
            && (now.Fails? && now.errno != ELOOP && now.errno != ENOTDIR ==> Open(sys, t, dir, part) == Stop(now.errno))
            && ((now.Found? && !sys.inodes(now.inode).kind.Directory?) || (now.Fails? && (now.errno == ELOOP || now.errno == ENOTDIR)) ==>
                  if again.Found? && sys.inodes(again.inode).kind.Symlink? then
                    Open(sys, t, dir, part) == Follow(sys.inodes(again.inode).kind.target)
                  else Open(sys, t, dir, part) == Stop(if now.Fails? then now.errno else ENOTDIR))
  {
  }

  // ----- the walk -----

  /** Where a walk is: the directories from the root to the one it has reached, the links followed, the
      calls made, and the directories searched. */
  datatype Trip = Trip(route: seq<Inode>, links: nat, t: nat, looked: set<Inode>) {
    predicate Valid() { route != [] && links <= MAX_LINKS }

    function Here(): Inode
      requires route != []
    {
      route[|route| - 1]
    }
  }

  datatype Outcome = Arrived(trip: Trip) | Raised(errno: Errno)

  function Up(route: seq<Inode>): (up: seq<Inode>)
    requires route != []
    ensures up != []
  {
    if |route| > 1 then route[..|route| - 1] else route
  }

  /** The directory a component is looked up in is searched. */
  function Seen(trip: Trip): Trip
    requires trip.Valid()
  {
    trip.(looked := trip.looked + {trip.Here()})
  }

  /** A link was read: its target is walked from the directory it is in, or from the root. */
  function Jump(sys: System, trip: Trip, target: string): Trip
    requires trip.Valid()
  {
    Seen(trip).(route := if Absolute(target) then [sys.root] else trip.route, links := trip.links + 1, t := trip.t + 2)
  }

  function Walk(sys: System, trip: Trip, parts: seq<string>): (outcome: Outcome)
    requires trip.Valid()
    ensures outcome.Arrived? ==> outcome.trip.Valid() && outcome.trip.links >= trip.links && trip.looked <= outcome.trip.looked
    decreases MAX_LINKS - trip.links, |parts|
  {
    if parts == [] then Arrived(trip)
    else if parts[0] == "" || parts[0] == "." then Walk(sys, trip, parts[1..])
    else
      var seen := Seen(trip);
      if parts[0] == ".." then Walk(sys, seen.(route := Up(trip.route)), parts[1..])
      else
        match Open(sys, trip.t, trip.Here(), parts[0])
        case Stop(e) => Raised(e)
        case Into(i) => Walk(sys, seen.(route := trip.route + [i], t := trip.t + 2), parts[1..])
        case Follow(target) =>
          if trip.links + 1 > MAX_LINKS then Raised(ELOOP)
          else
            var led := Walk(sys, Jump(sys, trip, target), Split(target));
            if led.Raised? then led else Walk(sys, led.trip, parts[1..])
  }

  function InodesOf(held: seq<Inode>, route: seq<nat>): (inodes: seq<Inode>)
    requires forall k :: 0 <= k < |route| ==> route[k] < |held|
    ensures |inodes| == |route|
  {
    seq(|route|, k requires 0 <= k < |route| => held[route[k]])
  }

  function Behind(held: seq<Inode>, fds: set<nat>): set<Inode>
    requires forall fd :: fd in fds ==> fd < |held|
  {
    set fd | fd in fds :: held[fd]
  }

  /** `_reach`'s variables: descriptor `fd` is `held[fd]`. */
  class Walker {
    const sys: System
    var held: seq<Inode>
    var searched: set<nat>
    var everyone: bool
    var links: nat
    var t: nat

    constructor (sys: System)
      ensures this.sys == sys && Valid() && Here([0])
      ensures TripOf([0]) == Trip([sys.root], 0, 0, {})
    {
      this.sys, held, searched, everyone, links, t := sys, [sys.root], {}, true, 0, 0;
    }

    /** The flag says whether every directory searched so far may be searched by every account. */
    ghost predicate Valid()
      reads this
    {
      && |held| > 0 && held[0] == sys.root && links <= MAX_LINKS
      && (forall fd :: fd in searched ==> fd < |held|)
      && (everyone <==> forall fd :: fd in searched ==> Searchable(sys, held[fd]))
    }

    ghost predicate Here(route: seq<nat>)
      reads this
    {
      route != [] && forall k :: 0 <= k < |route| ==> route[k] < |held|
    }

    ghost function TripOf(route: seq<nat>): (trip: Trip)
      requires Valid() && Here(route)
      reads this
    {
      Trip(InodesOf(held, route), links, t, Behind(held, searched))
    }

    /** `search`: a descriptor is checked once. */
    method Search(directory: nat)
      requires Valid() && directory < |held|
      modifies this`searched, this`everyone
      ensures Valid() && Behind(held, searched) == old(Behind(held, searched)) + {held[directory]}
    {
      if directory !in searched {
        searched := searched + {directory};
        everyone := everyone && EveryoneMay(sys.inodes(held[directory]), SEARCH);
      }
    }

    /** `hold` */
    method Hold(inode: Inode) returns (fd: nat)
      requires Valid()
      modifies this`held
      ensures Valid() && held == old(held) + [inode] && fd == |old(held)|
      ensures Behind(held, searched) == old(Behind(held, searched))
    {
      fd := |held|;
      held := held + [inode];
    }

    /** `walk` */
    method WalkAll(start: seq<nat>, rest: string) returns (route: seq<nat>, raised: bool, errno: Errno)
      requires Valid() && Here(start)
      modifies this
      ensures Valid() && Here(route) && old(held) <= held && links >= old(links)
      ensures Walk(sys, old(TripOf(start)), Split(rest)) == if raised then Raised(errno) else Arrived(TripOf(route))
      decreases MAX_LINKS - links
    {
      hide Walk, Open, Behind, InodesOf, Split, Searchable, EveryoneMay, Absolute;
      route, raised, errno := start, false, ENOENT;
      var parts := Split(rest);
      ghost var trip := TripOf(start);
      assert parts[0..] == parts;
      for i := 0 to |parts|
        invariant Valid() && Here(route) && old(held) <= held && links >= old(links)
        invariant !raised && Walk(sys, trip, parts) == Walk(sys, TripOf(route), parts[i..])
      {
        var part := parts[i];
        ghost var before := TripOf(route);
        assert parts[i..] == [part] + parts[i + 1..];
        WalkStep(sys, before, part, parts[i + 1..]);
        if part == "" || part == "." {
          continue;
        }
        var here := route[|route| - 1];
        LastOf(held, route);
        Search(here);
        assert TripOf(route) == Seen(before);
        if part == ".." {
          UpOf(held, route);
          route := if |route| > 1 then route[..|route| - 1] else route;
          continue;
        }
        var step := Open(sys, t, held[here], part);
        t := t + 2;
        match step {
          case Into(inode) =>
            GrownOf(held, route, inode);
            var fd := Hold(inode);
            route := route + [fd];
          case Stop(e) =>
            return route, true, e;
          case Follow(target) =>
            if links + 1 > MAX_LINKS {
              return route, true, ELOOP;
            }
            links := links + 1;
            RootOf(held);
            var from := if Absolute(target) then [0] else route;
            assert TripOf(from) == Jump(sys, before, target);
            route, raised, errno := WalkAll(from, target);
            if raised {
              return;
            }
        }
      }
      assert parts[|parts|..] == [];
      WalkEnd(sys, TripOf(route));
    }
  }

  lemma LastOf(held: seq<Inode>, route: seq<nat>)
    requires route != [] && forall k :: 0 <= k < |route| ==> route[k] < |held|
    ensures InodesOf(held, route)[|route| - 1] == held[route[|route| - 1]]
  {
  }

  lemma UpOf(held: seq<Inode>, route: seq<nat>)
    requires route != [] && forall k :: 0 <= k < |route| ==> route[k] < |held|
    ensures InodesOf(held, if |route| > 1 then route[..|route| - 1] else route) == Up(InodesOf(held, route))
  {
  }

  lemma GrownOf(held: seq<Inode>, route: seq<nat>, inode: Inode)
    requires forall k :: 0 <= k < |route| ==> route[k] < |held|
    ensures InodesOf(held + [inode], route + [|held|]) == InodesOf(held, route) + [inode]
  {
  }

  lemma RootOf(held: seq<Inode>)
    requires held != []
    ensures InodesOf(held, [0]) == [held[0]]
  {
  }

  lemma WalkEnd(sys: System, trip: Trip)
    requires trip.Valid()
    ensures Walk(sys, trip, []) == Arrived(trip)
  {
  }

  lemma WalkStep(sys: System, trip: Trip, part: string, rest: seq<string>)
    requires trip.Valid()
    ensures Walk(sys, trip, [part] + rest) == Stepped(sys, trip, part, rest)
  {
    assert ([part] + rest)[1..] == rest;
  }

  /** The walk, one component unrolled. */
  function Stepped(sys: System, trip: Trip, part: string, rest: seq<string>): Outcome
    requires trip.Valid()
  {
    if part == "" || part == "." then Walk(sys, trip, rest)
    else if part == ".." then Walk(sys, Seen(trip).(route := Up(trip.route)), rest)
    else
      match Open(sys, trip.t, trip.Here(), part)
      case Stop(e) => Raised(e)
      case Into(i) => Walk(sys, Seen(trip).(route := trip.route + [i], t := trip.t + 2), rest)
      case Follow(target) =>
        if trip.links + 1 > MAX_LINKS then Raised(ELOOP)
        else
          var led := Walk(sys, Jump(sys, trip, target), Split(target));
          if led.Raised? then led else Walk(sys, led.trip, rest)
  }

  /** Each link followed and each directory gone into takes two calls of its own, so bindings may change between any
      two of them. */
  lemma {:induction false} WalkTakesCalls(sys: System, trip: Trip, parts: seq<string>)
    requires trip.Valid()
    ensures Walk(sys, trip, parts).Arrived? ==>
              Walk(sys, trip, parts).trip.t >= trip.t + 2 * (Walk(sys, trip, parts).trip.links - trip.links)
    decreases MAX_LINKS - trip.links, |parts|
  {
    hide Walk, Open, Split, Absolute;
    if parts == [] {
      WalkEnd(sys, trip);
    } else {
      var part, rest := parts[0], parts[1..];
      assert parts == [part] + rest;
      WalkStep(sys, trip, part, rest);
      if part == "" || part == "." {
        WalkTakesCalls(sys, trip, rest);
      } else if part == ".." {
        WalkTakesCalls(sys, Seen(trip).(route := Up(trip.route)), rest);
      } else {
        var step := Open(sys, trip.t, trip.Here(), part);
        if step.Into? {
          WalkTakesCalls(sys, Seen(trip).(route := trip.route + [step.inode], t := trip.t + 2), rest);
        } else if step.Follow? && trip.links + 1 <= MAX_LINKS {
          WalkTakesCalls(sys, Jump(sys, trip, step.target), Split(step.target));
          var led := Walk(sys, Jump(sys, trip, step.target), Split(step.target));
          if led.Arrived? { WalkTakesCalls(sys, led.trip, rest); }
        }
      }
    }
  }

  // ----- reaching a directory -----

  function Setout(sys: System): (trip: Trip)
    ensures trip.Valid()
  {
    Trip([sys.root], 0, 0, {})
  }

  predicate AllSearchable(sys: System, looked: set<Inode>) {
    forall d :: d in looked ==> Searchable(sys, d)
  }

  /** `_reach` */
  method Reach(sys: System, cwd: string, path: string) returns (walker: Walker, reached: nat, raised: bool, errno: Errno)
    ensures fresh(walker) && walker.sys == sys && walker.Valid()
    ensures raised ==> Walk(sys, Setout(sys), Split(Join(cwd, path))) == Raised(errno)
    ensures !raised ==> Walk(sys, Setout(sys), Split(Join(cwd, path))).Arrived?
    ensures !raised ==>
              var trip := Walk(sys, Setout(sys), Split(Join(cwd, path))).trip;
              reached < |walker.held| && walker.held[reached] == trip.Here() && walker.t == trip.t
              && (walker.everyone <==> AllSearchable(sys, trip.looked))
  {
    hide Walk, InodesOf, Split, Join;
    walker := new Walker(sys);
    var route;
    route, raised, errno := walker.WalkAll([0], Join(cwd, path));
    reached := route[|route| - 1];
    LastOf(walker.held, route);
  }

  // ----- pathname resolution -----

  datatype Resolution = Resolved(dir: Inode, looked: set<Inode>) | Failed(errno: Errno)

  /** Bindings that nobody changes: a directory is bound in its parent alone, the root is its own parent,
      and a directory this process may not search answers no lookup. A directory every account may search,
      this process may search. */
  ghost predicate Still(sys: System, parent: Inode -> Inode, denied: Inode -> bool) {
    && parent(sys.root) == sys.root
    && (forall t, d, part :: sys.names(t, d, part) == sys.names(0, d, part))
    && (forall d, part :: denied(d) ==> sys.names(0, d, part) == Fails(EACCES))
    && (forall d, part :: sys.names(0, d, part).Found? && sys.inodes(sys.names(0, d, part).inode).kind.Directory?
                          ==> parent(sys.names(0, d, part).inode) == d)
    && (forall d :: Searchable(sys, d) ==> !denied(d))
  }

  /** Pathname resolution: each component is looked up in the directory its predecessor names, which must
      grant search; dot is that directory and dot-dot its parent; a symbolic link's contents go in front of
      what remains. `looked` gathers the directories searched. */
  function Resolve(sys: System, parent: Inode -> Inode, denied: Inode -> bool,
                   here: Inode, todo: seq<string>, links: nat, looked: set<Inode>): Resolution
    requires links <= MAX_LINKS
    decreases MAX_LINKS - links, |todo|
  {
    if todo == [] then Resolved(here, looked)
    else if todo[0] == "" then Resolve(sys, parent, denied, here, todo[1..], links, looked)
    else if denied(here) then Failed(EACCES)
    else
      var seen := looked + {here};
      if todo[0] == "." then Resolve(sys, parent, denied, here, todo[1..], links, seen)
      else if todo[0] == ".." then Resolve(sys, parent, denied, parent(here), todo[1..], links, seen)
      else
        match sys.names(0, here, todo[0])
        case Fails(e) => Failed(e)
        case Found(i) =>
          match sys.inodes(i).kind
          case Directory => Resolve(sys, parent, denied, i, todo[1..], links, seen)
          case Symlink(target) =>
            if links + 1 > MAX_LINKS then Failed(ELOOP)
            else Resolve(sys, parent, denied, if Absolute(target) then sys.root else here, Split(target) + todo[1..], links + 1, seen)
          case _ => Failed(ENOTDIR)
  }

  /** The route is the physical ancestor chain. */
  predicate Ancestors(sys: System, parent: Inode -> Inode, route: seq<Inode>) {
    route != [] && route[0] == sys.root && forall k :: 0 <= k < |route| - 1 ==> parent(route[k + 1]) == route[k]
  }

  lemma UpIsParent(sys: System, parent: Inode -> Inode, route: seq<Inode>)
    requires parent(sys.root) == sys.root && Ancestors(sys, parent, route)
    ensures Ancestors(sys, parent, Up(route)) && Up(route)[|Up(route)| - 1] == parent(route[|route| - 1])
  {
    if |route| > 1 {
      assert parent(route[(|route| - 2) + 1]) == route[|route| - 2];
    }
  }

  /** A walk this process may not make: the directory it is in, or one it has searched, refuses it. The walk
      itself passes `.` and `..` there without asking. */
  predicate Refused(denied: Inode -> bool, trip: Trip)
    requires trip.Valid()
  {
    denied(trip.Here()) || exists d :: d in trip.looked && denied(d)
  }

  lemma {:induction false} RefusedStays(sys: System, parent: Inode -> Inode, denied: Inode -> bool, trip: Trip, parts: seq<string>)
    requires Still(sys, parent, denied) && trip.Valid() && Refused(denied, trip)
    ensures Walk(sys, trip, parts).Arrived? ==> Refused(denied, Walk(sys, trip, parts).trip)
    decreases |parts|
  {
    if parts != [] {
      var rest := parts[1..];
      var seen := Seen(trip);
      if parts[0] == "" || parts[0] == "." {
        RefusedStays(sys, parent, denied, trip, rest);
      } else {
        assert exists d :: d in seen.looked && denied(d);
      }
    }
  }

  // ----- closing dots -----

  /** Whether the last component looked up is a `.`, the links followed included; `dot` says so of what came
      before. */
  predicate DotLast(sys: System, trip: Trip, parts: seq<string>, dot: bool)
    requires trip.Valid()
    decreases MAX_LINKS - trip.links, |parts|
  {
    if parts == [] then dot
    else if parts[0] == "" then DotLast(sys, trip, parts[1..], dot)
    else if parts[0] == "." then DotLast(sys, trip, parts[1..], true)
    else if parts[0] == ".." then DotLast(sys, Seen(trip).(route := Up(trip.route)), parts[1..], false)
    else
      match Open(sys, trip.t, trip.Here(), parts[0])
      case Stop(_) => false
      case Into(i) => DotLast(sys, Seen(trip).(route := trip.route + [i], t := trip.t + 2), parts[1..], false)
      case Follow(target) =>
        trip.links + 1 <= MAX_LINKS &&
        var led := Walk(sys, Jump(sys, trip, target), Split(target));
        led.Arrived? && DotLast(sys, led.trip, parts[1..], DotLast(sys, Jump(sys, trip, target), Split(target), false))
  }

  /** The same, one component unrolled. */
  predicate DotLastOne(sys: System, trip: Trip, part: string, rest: seq<string>, dot: bool)
    requires trip.Valid()
  {
    if part == "" then DotLast(sys, trip, rest, dot)
    else if part == "." then DotLast(sys, trip, rest, true)
    else if part == ".." then DotLast(sys, Seen(trip).(route := Up(trip.route)), rest, false)
    else
      match Open(sys, trip.t, trip.Here(), part)
      case Stop(_) => false
      case Into(i) => DotLast(sys, Seen(trip).(route := trip.route + [i], t := trip.t + 2), rest, false)
      case Follow(target) =>
        trip.links + 1 <= MAX_LINKS &&
        var led := Walk(sys, Jump(sys, trip, target), Split(target));
        led.Arrived? && DotLast(sys, led.trip, rest, DotLast(sys, Jump(sys, trip, target), Split(target), false))
  }

  lemma DotLastStep(sys: System, trip: Trip, part: string, rest: seq<string>, dot: bool)
    requires trip.Valid()
    ensures DotLast(sys, trip, [part] + rest, dot) == DotLastOne(sys, trip, part, rest, dot)
    ensures DotLast(sys, trip, [], dot) == dot
  {
    hide Walk, Open, Split;
    assert ([part] + rest)[1..] == rest;
  }

  /** The texts of the links a walk follows. */
  function Followed(sys: System, trip: Trip, parts: seq<string>): set<string>
    requires trip.Valid()
    decreases MAX_LINKS - trip.links, |parts|
  {
    if parts == [] then {}
    else if parts[0] == "" || parts[0] == "." then Followed(sys, trip, parts[1..])
    else if parts[0] == ".." then Followed(sys, Seen(trip).(route := Up(trip.route)), parts[1..])
    else
      match Open(sys, trip.t, trip.Here(), parts[0])
      case Stop(_) => {}
      case Into(i) => Followed(sys, Seen(trip).(route := trip.route + [i], t := trip.t + 2), parts[1..])
      case Follow(target) =>
        if trip.links + 1 > MAX_LINKS then {}
        else
          var led := Walk(sys, Jump(sys, trip, target), Split(target));
          {target} + Followed(sys, Jump(sys, trip, target), Split(target))
          + if led.Arrived? then Followed(sys, led.trip, parts[1..]) else {}
  }

  /** The last component that is not empty is a `.`. */
  predicate ClosesInDot(parts: seq<string>) {
    parts != [] && (if parts[|parts| - 1] == "" then ClosesInDot(parts[..|parts| - 1]) else parts[|parts| - 1] == ".")
  }

  predicate AllEmpty(parts: seq<string>) { forall k :: 0 <= k < |parts| ==> parts[k] == "" }

  predicate SomeCloses(targets: set<string>) {
    exists target :: target in targets && ClosesInDot(Split(target))
  }

  lemma SomeClosesAmong(a: set<string>, b: set<string>)
    requires SomeCloses(a) && a <= b
    ensures SomeCloses(b)
  {
    hide Split, ClosesInDot;
    var target :| target in a && ClosesInDot(Split(target));
    assert target in b;
  }

  lemma {:induction false} ClosesFromFront(part: string, rest: seq<string>)
    ensures ClosesInDot([part] + rest) == if AllEmpty(rest) then part == "." else ClosesInDot(rest)
  {
    var parts := [part] + rest;
    if rest != [] && rest[|rest| - 1] == "" {
      var front := rest[..|rest| - 1];
      ClosesFromFront(part, front);
      assert parts[..|parts| - 1] == [part] + front;
      assert AllEmpty(rest) <==> AllEmpty(front);
    } else if rest == [] {
      assert parts[..|parts| - 1] == [];
    }
  }

  /** A walk's last component is a `.` only if its path, or a link it follows, closes in one; and is one if its
      path does. */
  lemma {:induction false} DotLastIs(sys: System, trip: Trip, parts: seq<string>, dot: bool)
    requires trip.Valid() && Walk(sys, trip, parts).Arrived?
    ensures ClosesInDot(parts) || (dot && AllEmpty(parts)) ==> DotLast(sys, trip, parts, dot)
    ensures DotLast(sys, trip, parts, dot) ==>
              ClosesInDot(parts) || (dot && AllEmpty(parts)) || SomeCloses(Followed(sys, trip, parts))
    decreases MAX_LINKS - trip.links, |parts|
  {
    hide Open, Split, DotLast, ClosesInDot, Walk, SomeCloses;
    if parts == [] {
      DotLastStep(sys, trip, "", [], dot);
      EmptyCloses([]);
      return;
    }
    var part, rest := parts[0], parts[1..];
    assert parts == [part] + rest;
    WalkStep(sys, trip, part, rest);
    DotLastStep(sys, trip, part, rest, dot);
    ClosesFromFront(part, rest);
    EmptyCloses(rest);
    assert AllEmpty(parts) <==> part == "" && AllEmpty(rest);
    if part == "" {
      DotLastIs(sys, trip, rest, dot);
    } else if part == "." {
      DotLastIs(sys, trip, rest, true);
    } else if part == ".." {
      DotLastIs(sys, Seen(trip).(route := Up(trip.route)), rest, false);
    } else {
      var step := Open(sys, trip.t, trip.Here(), part);
      if step.Into? {
        DotLastIs(sys, Seen(trip).(route := trip.route + [step.inode], t := trip.t + 2), rest, false);
      } else if step.Follow? {
        var from := Jump(sys, trip, step.target);
        DotLastIs(sys, from, Split(step.target), false);
        var led := Walk(sys, from, Split(step.target)).trip;
        DotLastIs(sys, led, rest, DotLast(sys, from, Split(step.target), false));
        var all := Followed(sys, trip, parts);
        var inner, after := Followed(sys, from, Split(step.target)), Followed(sys, led, rest);
        assert all == {step.target} + inner + after;
        if SomeCloses(after) { SomeClosesAmong(after, all); }
        if SomeCloses(inner) { SomeClosesAmong(inner, all); }
        if ClosesInDot(Split(step.target)) { OneCloses(step.target); SomeClosesAmong({step.target}, all); }
      }
    }
  }

  lemma OneCloses(target: string)
    requires ClosesInDot(Split(target))
    ensures SomeCloses({target})
  {
  }

  lemma {:induction false} EmptyCloses(parts: seq<string>)
    ensures AllEmpty(parts) ==> !ClosesInDot(parts)
  {
    if parts != [] {
      EmptyCloses(parts[..|parts| - 1]);
    }
  }

  // ----- the walk keeps with resolution -----

  lemma StillOpen(sys: System, parent: Inode -> Inode, denied: Inode -> bool, t: nat, d: Inode, part: string)
    requires Still(sys, parent, denied)
    ensures match sys.names(0, d, part)
            case Fails(e) => Open(sys, t, d, part) == Stop(e)
            case Found(i) =>
              match sys.inodes(i).kind
              case Directory => Open(sys, t, d, part) == Into(i) && parent(i) == d
              case Symlink(target) => Open(sys, t, d, part) == Follow(target)
              case _ => Open(sys, t, d, part) == Stop(ENOTDIR)
  {
    assert sys.names(t, d, part) == sys.names(0, d, part);
    assert sys.names(t + 1, d, part) == sys.names(0, d, part);
  }

  /** What resolution has searched where a walk is: after a `.`, which the walk passes over, the directory it
      is in as well. */
  function Ahead(trip: Trip, dot: bool): set<Inode>
    requires trip.Valid()
  {
    if dot then trip.looked + {trip.Here()} else trip.looked
  }

  /** What a walk comes to beside the resolution `whole` of its components and `more`: the walk is where the
      resolution is, or the resolution failed as the walk did, or it was refused a search that the walk
      passed without asking. */
  ghost predicate Keeps(sys: System, parent: Inode -> Inode, denied: Inode -> bool, outcome: Outcome, dot: bool,
                        whole: Resolution, more: seq<string>)
    requires outcome.Arrived? ==> outcome.trip.Valid()
  {
    match outcome
    case Raised(e) => whole == Failed(e) || whole == Failed(EACCES)
    case Arrived(led) =>
      || (&& Ancestors(sys, parent, led.route)
          && whole == Resolve(sys, parent, denied, led.Here(), more, led.links, Ahead(led, dot)))
      || (Refused(denied, led) && whole == Failed(EACCES))
  }

  lemma StillRoot(sys: System, parent: Inode -> Inode, denied: Inode -> bool)
    requires Still(sys, parent, denied)
    ensures parent(sys.root) == sys.root
  {
  }

  lemma ResolveStep(sys: System, parent: Inode -> Inode, denied: Inode -> bool,
                    here: Inode, part: string, rest: seq<string>, links: nat, looked: set<Inode>)
    requires links <= MAX_LINKS
    ensures Resolve(sys, parent, denied, here, [part] + rest, links, looked)
         == ResolveOne(sys, parent, denied, here, part, rest, links, looked)
  {
    assert ([part] + rest)[1..] == rest;
  }

  /** Resolution, one component unrolled. */
  function ResolveOne(sys: System, parent: Inode -> Inode, denied: Inode -> bool,
                      here: Inode, part: string, rest: seq<string>, links: nat, looked: set<Inode>): Resolution
    requires links <= MAX_LINKS
  {
    if part == "" then Resolve(sys, parent, denied, here, rest, links, looked)
    else if denied(here) then Failed(EACCES)
    else
      var seen := looked + {here};
      if part == "." then Resolve(sys, parent, denied, here, rest, links, seen)
      else if part == ".." then Resolve(sys, parent, denied, parent(here), rest, links, seen)
      else
        match sys.names(0, here, part)
        case Fails(e) => Failed(e)
        case Found(i) =>
          match sys.inodes(i).kind
          case Directory => Resolve(sys, parent, denied, i, rest, links, seen)
          case Symlink(target) =>
            if links + 1 > MAX_LINKS then Failed(ELOOP)
            else Resolve(sys, parent, denied, if Absolute(target) then sys.root else here, Split(target) + rest, links + 1, seen)
          case _ => Failed(ENOTDIR)
  }

  lemma {:induction false} WalkKeeps(sys: System, parent: Inode -> Inode, denied: Inode -> bool,
                                     trip: Trip, parts: seq<string>, more: seq<string>, dot: bool)
    requires Still(sys, parent, denied) && trip.Valid() && Ancestors(sys, parent, trip.route)
    ensures Keeps(sys, parent, denied, Walk(sys, trip, parts), DotLast(sys, trip, parts, dot),
                  Resolve(sys, parent, denied, trip.Here(), parts + more, trip.links, Ahead(trip, dot)), more)
    decreases MAX_LINKS - trip.links, |parts|
  {
    hide Still, Open, Split, Searchable, Walk, Resolve, DotLast;
    if parts == [] {
      assert parts + more == more;
      WalkEnd(sys, trip);
      DotLastStep(sys, trip, "", [], dot);
      return;
    }
    var part, rest := parts[0], parts[1..];
    var here := trip.Here();
    assert parts == [part] + rest && parts + more == [part] + (rest + more);
    WalkStep(sys, trip, part, rest);
    DotLastStep(sys, trip, part, rest, dot);
    ResolveStep(sys, parent, denied, here, part, rest + more, trip.links, Ahead(trip, dot));
    if part == "" {
      WalkKeeps(sys, parent, denied, trip, rest, more, dot);
    } else if denied(here) {
      RefusedStays(sys, parent, denied, trip, parts);
    } else if part == "." {
      assert Ahead(trip, dot) + {here} == Ahead(trip, true);
      WalkKeeps(sys, parent, denied, trip, rest, more, true);
    } else {
      assert Ahead(trip, dot) + {here} == Seen(trip).looked;
      ComponentKeeps(sys, parent, denied, trip, part, rest, more, dot);
    }
  }

  lemma {:induction false} ComponentKeeps(sys: System, parent: Inode -> Inode, denied: Inode -> bool,
                                          trip: Trip, part: string, rest: seq<string>, more: seq<string>, dot: bool)
    requires Still(sys, parent, denied) && trip.Valid() && Ancestors(sys, parent, trip.route)
    requires !denied(trip.Here()) && part != "" && part != "."
    ensures Keeps(sys, parent, denied, Stepped(sys, trip, part, rest), DotLastOne(sys, trip, part, rest, dot),
                  ResolveOne(sys, parent, denied, trip.Here(), part, rest + more, trip.links, Seen(trip).looked), more)
    decreases MAX_LINKS - trip.links, |rest| + 1, 0
  {
    hide Still, Open, Split, Searchable, Walk, Resolve, DotLast;
    var here, seen := trip.Here(), Seen(trip).looked;
    assert seen + {here} == seen;
    if part == ".." {
      StillRoot(sys, parent, denied);
      UpIsParent(sys, parent, trip.route);
      WalkKeeps(sys, parent, denied, Seen(trip).(route := Up(trip.route)), rest, more, false);
    } else {
      StillOpen(sys, parent, denied, trip.t, here, part);
      var step := Open(sys, trip.t, here, part);
      if step.Into? {
        WalkKeeps(sys, parent, denied, Seen(trip).(route := trip.route + [step.inode], t := trip.t + 2), rest, more, false);
      } else if step.Follow? && trip.links + 1 <= MAX_LINKS {
        LinkKeeps(sys, parent, denied, trip, step.target, rest, more);
      }
    }
  }

  lemma {:induction false} LinkKeeps(sys: System, parent: Inode -> Inode, denied: Inode -> bool,
                                     trip: Trip, target: string, rest: seq<string>, more: seq<string>)
    requires Still(sys, parent, denied) && trip.Valid() && Ancestors(sys, parent, trip.route) && trip.links < MAX_LINKS
    ensures var from := Jump(sys, trip, target);
            var led, dot := Walk(sys, from, Split(target)), DotLast(sys, from, Split(target), false);
            Keeps(sys, parent, denied, if led.Raised? then led else Walk(sys, led.trip, rest),
                  led.Arrived? && DotLast(sys, led.trip, rest, dot),
                  Resolve(sys, parent, denied, if Absolute(target) then sys.root else trip.Here(), Split(target) + (rest + more),
                          trip.links + 1, Seen(trip).looked), more)
    decreases MAX_LINKS - trip.links, |rest|
  {
    hide Still, Open, Split, Searchable, Walk, Resolve, DotLast;
    var from := Jump(sys, trip, target);
    var led, dot := Walk(sys, from, Split(target)), DotLast(sys, from, Split(target), false);
    WalkKeeps(sys, parent, denied, from, Split(target), rest + more, false);
    if led.Arrived? {
      if Refused(denied, led.trip) {
        RefusedStays(sys, parent, denied, led.trip, rest);
      }
      if Ancestors(sys, parent, led.trip.route) {
        WalkKeeps(sys, parent, denied, led.trip, rest, more, dot);
      }
    }
  }

  function Walked(sys: System, path: string): Outcome {
    Walk(sys, Setout(sys), Split(path))
  }

  function Pathname(sys: System, parent: Inode -> Inode, denied: Inode -> bool, path: string): Resolution {
    Resolve(sys, parent, denied, sys.root, Split(path), 0, {})
  }

  /** Whether the last component a path's walk looks up is a `.`. */
  predicate EndsAtDot(sys: System, path: string) {
    DotLast(sys, Setout(sys), Split(path), false)
  }

  /** On bindings that nobody changes, the walk ends where resolution does, by the physical ancestor chain,
      having searched the same directories and, exactly when its last component is a `.`, not yet the last;
      and it fails where resolution does, except where this process was refused a search. */
  lemma WalkRefinesResolution(sys: System, parent: Inode -> Inode, denied: Inode -> bool, path: string)
    requires Still(sys, parent, denied)
    ensures var walk, whole := Walked(sys, path), Pathname(sys, parent, denied, path);
            && (whole.Resolved? ==> walk.Arrived? && walk.trip.Here() == whole.dir && Ancestors(sys, parent, walk.trip.route)
                                    && whole.looked == Ahead(walk.trip, EndsAtDot(sys, path)))
            && (whole.Failed? ==> walk == Raised(whole.errno)
                                  || (whole.errno == EACCES && (walk.Arrived? ==> Refused(denied, walk.trip))))
  {
    hide Still, Walk, Split, Resolve, Refused, DotLast;
    var parts := Split(path);
    assert parts + [] == parts;
    WalkKeeps(sys, parent, denied, Setout(sys), parts, [], false);
    var walk := Walked(sys, path);
    if walk.Arrived? {
      ResolveEnd(sys, parent, denied, walk.trip.Here(), walk.trip.links, Ahead(walk.trip, EndsAtDot(sys, path)));
    }
  }

  lemma ResolveEnd(sys: System, parent: Inode -> Inode, denied: Inode -> bool, here: Inode, links: nat, looked: set<Inode>)
    requires links <= MAX_LINKS
    ensures Resolve(sys, parent, denied, here, [], links, looked) == Resolved(here, looked)
  {
  }

  /** Whether every account can reach the directory and list it, by the walk. */
  predicate OpenByWalk(sys: System, walk: Outcome)
    requires walk.Arrived? ==> walk.trip.Valid()
  {
    walk.Arrived? && AllSearchable(sys, walk.trip.looked) && EveryoneMay(sys.inodes(walk.trip.Here()), LIST)
  }

  /** The same, by resolution. */
  predicate OpenByResolution(sys: System, whole: Resolution) {
    whole.Resolved? && AllSearchable(sys, whole.looked) && EveryoneMay(sys.inodes(whole.dir), LIST)
  }

  /** The decision is resolution's: a closing `.` and this process's own refusals never change it. */
  lemma OpenExactly(sys: System, parent: Inode -> Inode, denied: Inode -> bool, path: string)
    requires Still(sys, parent, denied)
    ensures OpenByWalk(sys, Walked(sys, path)) <==> OpenByResolution(sys, Pathname(sys, parent, denied, path))
  {
    hide Walk, Split, Resolve, EndsAtDot;
    WalkRefinesResolution(sys, parent, denied, path);
    var walk, whole := Walked(sys, path), Pathname(sys, parent, denied, path);
    if walk.Arrived? {
      ListMeansSearch(sys.inodes(walk.trip.Here()));
    }
  }

  /** The flag alone is resolution's answer if and only if, where the last component is a `.`, the directory it
      is looked up in was searched already, may be searched by every account, or the flag is down anyway. */
  lemma FlagExactly(sys: System, parent: Inode -> Inode, denied: Inode -> bool, path: string)
    requires Still(sys, parent, denied) && Pathname(sys, parent, denied, path).Resolved?
    ensures Walked(sys, path).Arrived?
    ensures var trip, whole := Walked(sys, path).trip, Pathname(sys, parent, denied, path);
            (AllSearchable(sys, trip.looked) <==> AllSearchable(sys, whole.looked))
            <==> (EndsAtDot(sys, path) ==>
                  trip.Here() in trip.looked || Searchable(sys, trip.Here()) || !AllSearchable(sys, trip.looked))
  {
    hide Walk, Split, Resolve, EndsAtDot, Searchable;
    WalkRefinesResolution(sys, parent, denied, path);
  }

  /** Where neither the path nor a link followed closes in a `.`, the walk has searched what resolution has. */
  lemma NoClosingDot(sys: System, parent: Inode -> Inode, denied: Inode -> bool, path: string)
    requires Still(sys, parent, denied) && Pathname(sys, parent, denied, path).Resolved?
    requires !ClosesInDot(Split(path))
    requires !SomeCloses(Followed(sys, Setout(sys), Split(path)))
    ensures Walked(sys, path).Arrived? && Walked(sys, path).trip.looked == Pathname(sys, parent, denied, path).looked
  {
    hide Walk, Split, Resolve, DotLast, Followed, ClosesInDot, SomeCloses;
    WalkRefinesResolution(sys, parent, denied, path);
    DotLastIs(sys, Setout(sys), Split(path), false);
  }

  /** And a path that closes in a `.`, looked up in a directory nothing else was, has one more searched. */
  lemma ClosingDot(sys: System, parent: Inode -> Inode, denied: Inode -> bool, path: string)
    requires Still(sys, parent, denied) && Pathname(sys, parent, denied, path).Resolved? && ClosesInDot(Split(path))
    requires Walked(sys, path).Arrived? ==> Walked(sys, path).trip.Here() !in Walked(sys, path).trip.looked
    ensures Walked(sys, path).Arrived?
    ensures var trip, whole := Walked(sys, path).trip, Pathname(sys, parent, denied, path);
            && whole.looked == trip.looked + {whole.dir} && whole.looked != trip.looked
            && (!Searchable(sys, whole.dir) ==> !AllSearchable(sys, whole.looked))
  {
    hide Walk, Split, Resolve, DotLast, ClosesInDot, Searchable;
    WalkRefinesResolution(sys, parent, denied, path);
    DotLastIs(sys, Setout(sys), Split(path), false);
    assert Pathname(sys, parent, denied, path).dir in Pathname(sys, parent, denied, path).looked;
  }

  /** A root that holds one directory, `d`, which nobody may search. */
  function ClosedDirectory(): System {
    System(0, i => Attributes(Directory, if i == 0 then SEARCH else 0, false),
           (t, d, part) => if d == 0 && part == "d" then Found(1) else Fails(ENOENT))
  }

  /** A closing `.` is searched by resolution and not by the walk. */
  lemma DotIsPassed()
    ensures var sys := ClosedDirectory();
            && Still(sys, i => 0, i => false)
            && Walked(sys, "/d/.").Arrived? && AllSearchable(sys, Walked(sys, "/d/.").trip.looked)
            && !AllSearchable(sys, Pathname(sys, i => 0, i => false, "/d/.").looked)
  {
    var sys, start := ClosedDirectory(), Setout(ClosedDirectory());
    var there := Trip([0, 1], 0, 2, {0});
    assert Split("/d/.") == ["", "d", "."] by {
      assert "."[1..] == "" && "/."[1..] == "." && "d/."[1..] == "/." && "/d/."[1..] == "d/.";
      assert Split("") == [""] && ['.'] + "" == "." && ['d'] + "" == "d";
      assert Split(".") == ["."];
      assert Split("/.") == ["", "."];
      assert Split("d/.") == ["d", "."];
    }
    assert ["", "d", "."] == [""] + ["d", "."] && ["d", "."] == ["d"] + ["."] && ["."] == ["."] + [];
    WalkStep(sys, start, "", ["d", "."]);
    WalkStep(sys, start, "d", ["."]);
    assert Seen(start).(route := [0] + [1], t := 2) == there;
    WalkStep(sys, there, ".", []);
    ResolveStep(sys, i => 0, i => false, 0, "", ["d", "."], 0, {});
    ResolveStep(sys, i => 0, i => false, 0, "d", ["."], 0, {});
    ResolveStep(sys, i => 0, i => false, 1, ".", [], 0, {} + {0});
    assert !Searchable(sys, 1);
  }
}
