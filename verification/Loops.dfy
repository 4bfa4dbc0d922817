/** Whether resolving a path passes through too many symbolic links (`_loops` in executor/ssh.py): the
    walk keeps what is still to resolve on one stack. */
module Loops {
  import opened Paths
  import opened Wrappers

  const MAX_LINKS: nat := 40

  /** What the server's `lstat` says of a path and, of a link, `readlink`: None when that fails. */
  datatype Entry = NoLink | Link(names: Option<string>) | Unreadable

  type Server = string -> Entry

  /** `[part for part in path.split('/') if part]` */
  function Nonempty(parts: seq<string>): seq<string> {
    if parts == [] then [] else (if parts[0] == "" then [] else [parts[0]]) + Nonempty(parts[1..])
  }

  /** How many of the parts are not empty. */
  function CountOf(parts: seq<string>): nat {
    if parts == [] then 0 else CountOf(parts[..|parts| - 1]) + if |parts[|parts| - 1]| > 0 then 1 else 0
  }

  /** Every part that is not empty is kept, in order, and no other. */
  lemma {:induction false} NonemptyExactly(parts: seq<string>, k: nat)
    requires k <= |parts|
    ensures |Nonempty(parts)| == CountOf(parts) && CountOf(parts[..k]) <= CountOf(parts)
    ensures k < |parts| && parts[k] != "" ==> CountOf(parts[..k]) < CountOf(parts) && Nonempty(parts)[CountOf(parts[..k])] == parts[k]
  {
    hide CountOf;
    NoneCounted();
    if parts != [] {
      var rest := parts[1..];
      CountFront(parts, |parts|);
      CountFront(parts, k);
      NonemptyExactly(rest, if k == 0 then 0 else k - 1);
      assert parts[..|parts|] == parts && rest[..|rest|] == rest && parts[..0] == [];
    }
  }

  lemma NoneCounted()
    ensures CountOf([]) == 0
  {
  }

  lemma {:induction false} CountFront(parts: seq<string>, k: nat)
    requires 0 < |parts| && k <= |parts|
    ensures k > 0 ==> CountOf(parts[..k]) == (if |parts[0]| > 0 then 1 else 0) + CountOf(parts[1..][..k - 1])
  {
    if k > 1 {
      CountFront(parts, k - 1);
      assert parts[..k][..k - 1] == parts[..k - 1] && parts[1..][..k - 1][..k - 2] == parts[1..][..k - 2];
    } else if k == 1 {
      assert parts[..1][..0] == [] && parts[1..][..0] == [];
    }
  }

  function Parts(path: string): seq<string> {
    Nonempty(Split(path))
  }

  // ----- resolution, with no limit -----

  /** The directory resolution has come to, what is left, first component first, and the links passed. */
  datatype Config = Config(done: string, todo: seq<string>, links: nat)

  /** One component; None when nothing is left or a component cannot be read. */
  function Next(server: Server, c: Config): Option<Config> {
    if c.todo == [] then None
    else
      var part, rest := c.todo[0], c.todo[1..];
      if part == "." then Some(c.(todo := rest))
      else if part == ".." then Some(c.(done := Dirname(c.done), todo := rest))
      else
        var step := Join(c.done, part);
        match server(step)
        case Unreadable => None
        case NoLink => Some(c.(done := step, todo := rest))
        case Link(None) => Some(Config(c.done, [], c.links + 1))
        case Link(Some(names)) =>
          Some(Config(if Absolute(names) then "/" else c.done, Parts(names) + rest, c.links + 1))
  }

  /** Where `n` components lead. */
  function After(server: Server, c: Config, n: nat): Option<Config>
    decreases n
  {
    if n == 0 then Some(c)
    else if Next(server, c).None? then None
    else After(server, Next(server, c).value, n - 1)
  }

  /** Resolution passes through more than `MAX_LINKS` links, however long it goes on. */
  ghost predicate TooMany(server: Server, c: Config) {
    exists n :: After(server, c, n).Some? && After(server, c, n).value.links > 40
  }

  lemma {:induction false} NonemptyAre(parts: seq<string>)
    requires forall k :: 0 <= k < |parts| ==> '/' !in parts[k]
    ensures forall k :: 0 <= k < |Nonempty(parts)| ==> Name(Nonempty(parts)[k])
  {
    if parts != [] {
      NonemptyAre(parts[1..]);
    }
  }

  ghost predicate Proper(c: Config) {
    Clean(c.done) && forall k :: 0 <= k < |c.todo| ==> Name(c.todo[k])
  }

  /** The directory is always a clean path, so each `..` undoes the step that led there (`UpUndoesStep`). */
  lemma NextIsProper(server: Server, c: Config)
    requires Proper(c) && Next(server, c).Some?
    ensures Proper(Next(server, c).value)
  {
    hide Clean, Join, Dirname, Split, Nonempty;
    var part := c.todo[0];
    assert Clean("/") by { RootIsClean(); }
    UpStaysClean(c.done);
    UpUndoesStep(c.done, part);
    if part != "." && part != ".." && server(Join(c.done, part)).Link? && server(Join(c.done, part)).names.Some? {
      var names := server(Join(c.done, part)).names.value;
      SplitHasNoSlash(names);
      NonemptyAre(Split(names));
    }
  }

  // ----- the bounded walk -----

  /** The same, stopped at the first link too many: on (links left, components left) it ends. */
  predicate Loops(server: Server, c: Config)
    requires c.links <= MAX_LINKS
    decreases MAX_LINKS - c.links, |c.todo|
  {
    var next := Next(server, c);
    next.Some? && (next.value.links > MAX_LINKS || Loops(server, next.value))
  }

  lemma {:induction false} LoopsWitness(server: Server, c: Config) returns (n: nat)
    requires c.links <= MAX_LINKS && Loops(server, c)
    ensures After(server, c, n).Some? && After(server, c, n).value.links > MAX_LINKS
    decreases MAX_LINKS - c.links, |c.todo|
  {
    hide Join, Dirname, Parts;
    var d := Next(server, c).value;
    if d.links > MAX_LINKS {
      n := 1;
      assert After(server, d, 0) == Some(d);
    } else {
      var m := LoopsWitness(server, d);
      n := m + 1;
    }
  }

  lemma {:induction false} WitnessLoops(server: Server, c: Config, n: nat)
    requires c.links <= MAX_LINKS && After(server, c, n).Some? && After(server, c, n).value.links > MAX_LINKS
    ensures Loops(server, c)
    decreases n
  {
    hide Join, Dirname, Parts;
    var d := Next(server, c).value;
    if d.links <= MAX_LINKS {
      WitnessLoops(server, d, n - 1);
    }
  }

  /** The answer is true exactly when resolution, with no limit, passes through more than 40 links. */
  lemma LoopsExactly(server: Server, c: Config)
    requires c.links <= MAX_LINKS
    ensures Loops(server, c) <==> TooMany(server, c)
  {
    hide Join, Dirname, Parts;
    if Loops(server, c) {
      var n := LoopsWitness(server, c);
    }
    if TooMany(server, c) {
      var n :| After(server, c, n).Some? && After(server, c, n).value.links > MAX_LINKS;
      WitnessLoops(server, c, n);
    }
  }

  // ----- the recursive definition -----

  /** What a list of components leads to: the directory and the links passed; or one link too many; or a
      component that cannot be read. */
  datatype Trail = Ended(done: string, links: nat) | OneTooMany | Broken

  /** A link's text is resolved where the link is, then what follows it. */
  function Recursive(server: Server, done: string, parts: seq<string>, links: nat): (trail: Trail)
    requires links <= MAX_LINKS
    ensures trail.Ended? ==> links <= trail.links <= MAX_LINKS
    decreases MAX_LINKS - links, |parts|
  {
    if parts == [] then Ended(done, links)
    else if parts[0] == "." then Recursive(server, done, parts[1..], links)
    else if parts[0] == ".." then Recursive(server, Dirname(done), parts[1..], links)
    else
      match server(Join(done, parts[0]))
      case Unreadable => Broken
      case NoLink => Recursive(server, Join(done, parts[0]), parts[1..], links)
      case Link(names) =>
        if links + 1 > MAX_LINKS then OneTooMany
        else if names.None? then Broken
        else
          var led := Recursive(server, if Absolute(names.value) then "/" else done, Parts(names.value), links + 1);
          if led.Ended? then Recursive(server, led.done, parts[1..], led.links) else led
  }

  /** The one stack counts the links the recursive definition counts. */
  lemma {:induction false} StackIsRecursion(server: Server, done: string, parts: seq<string>, more: seq<string>, links: nat)
    requires links <= MAX_LINKS
    ensures Loops(server, Config(done, parts + more, links)) == (
              match Recursive(server, done, parts, links)
              case OneTooMany => true
              case Broken => false
              case Ended(there, passed) => Loops(server, Config(there, more, passed)))
    decreases MAX_LINKS - links, |parts|
  {
    hide Parts, Join, Dirname;
    if parts == [] {
      assert parts + more == more;
    } else {
      var part, rest := parts[0], parts[1..];
      assert (parts + more)[1..] == rest + more;
      if part == "." {
        StackIsRecursion(server, done, rest, more, links);
      } else if part == ".." {
        StackIsRecursion(server, Dirname(done), rest, more, links);
      } else {
        match server(Join(done, part)) {
          case Unreadable =>
          case NoLink => StackIsRecursion(server, Join(done, part), rest, more, links);
          case Link(names) =>
            if links + 1 <= MAX_LINKS && names.Some? {
              var from := if Absolute(names.value) then "/" else done;
              StackIsRecursion(server, from, Parts(names.value), rest + more, links + 1);
              var led := Recursive(server, from, Parts(names.value), links + 1);
              if led.Ended? {
                StackIsRecursion(server, led.done, rest, more, led.links);
              }
            }
        }
      }
    }
  }

  /** Of a path, from the directory `done`. */
  lemma PathIsRecursion(server: Server, done: string, path: string)
    ensures Loops(server, Config(done, Parts(path), 0)) <==> Recursive(server, done, Parts(path), 0).OneTooMany?
  {
    hide Parts;
    StackIsRecursion(server, done, Parts(path), [], 0);
    assert Parts(path) + [] == Parts(path);
  }

  // ----- `_loops` -----

  function Reversed(s: seq<string>): (r: seq<string>)
    ensures |r| == |s|
  {
    if s == [] then [] else Reversed(s[1..]) + [s[0]]
  }

  lemma {:induction false} ReversedConcat(a: seq<string>, b: seq<string>)
    ensures Reversed(a + b) == Reversed(b) + Reversed(a)
  {
    if a == [] {
      assert a + b == b;
    } else {
      assert (a + b)[1..] == a[1..] + b;
      ReversedConcat(a[1..], b);
    }
  }

  /** `_loops`: `home` is what `normalize('.')` gives, None when it fails. The next component is popped off
      the end of the stack. */
  method PathLoops(server: Server, home: Option<string>, path: string) returns (loops: bool)
    ensures !Absolute(path) && home.None? ==> !loops
    ensures Absolute(path) || home.Some? ==>
              (loops <==> TooMany(server, Config(if Absolute(path) then "/" else home.value, Parts(path), 0)))
  {
    hide Parts, Join, Dirname, TooMany;
    var done := "/";
    if !Absolute(path) {
      if home.None? {
        return false;
      }
      done := home.value;
    }
    ghost var start := Config(done, Parts(path), 0);
    LoopsExactly(server, start);
    var todo, links := Reversed(Parts(path)), 0;
    ghost var left := Parts(path);
    while todo != []
      invariant todo == Reversed(left) && links <= MAX_LINKS
      invariant Loops(server, start) == Loops(server, Config(done, left, links))
      decreases MAX_LINKS - links, |todo|
    {
      var part := todo[|todo| - 1];
      todo := todo[..|todo| - 1];
      ghost var rest := left[1..];
      assert part == left[0] && todo == Reversed(rest);
      left := rest;
      if part == "." {
        continue;
      }
      if part == ".." {
        done := Dirname(done);
        continue;
      }
      var step := Join(done, part);
      match server(step) {
        case Unreadable =>
          return false;
        case NoLink =>
          done := step;
        case Link(names) =>
          links := links + 1;
          if links > MAX_LINKS {
            return true;
          }
          if names.None? {
            assert !Loops(server, Config(done, [], links));
            return false;
          }
          if Absolute(names.value) {
            done := "/";
          }
          ReversedConcat(Parts(names.value), rest);
          todo := todo + Reversed(Parts(names.value));
          left := Parts(names.value) + rest;
      }
    }
    loops := false;
  }
}
