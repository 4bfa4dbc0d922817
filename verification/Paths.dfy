/** Path texts, as `posixpath` takes them apart and joins them. */
module Paths {
  /** `path.split('/')` */
  function Split(path: string): (parts: seq<string>)
    ensures parts != []
  {
    if path == [] then [""]
    else
      var rest := Split(path[1..]);
      if path[0] == '/' then [""] + rest else [[path[0]] + rest[0]] + rest[1..]
  }

  predicate Absolute(path: string) { path != [] && path[0] == '/' }

  predicate EndsInSlash(path: string) { path != [] && path[|path| - 1] == '/' }

  /** `join` */
  function Join(a: string, b: string): string {
    if Absolute(b) then b else if a == [] || EndsInSlash(a) then a + b else a + "/" + b
  }

  predicate AllSlashes(s: string) { forall i :: 0 <= i < |s| ==> s[i] == '/' }

  /** `s.rstrip('/')` */
  function Stripped(s: string): string {
    if EndsInSlash(s) then Stripped(s[..|s| - 1]) else s
  }

  /** Everything up to the last slash, with it. */
  function UpToSlash(path: string): string {
    if path == [] || EndsInSlash(path) then path else UpToSlash(path[..|path| - 1])
  }

  /** `dirname` */
  function Dirname(path: string): string {
    var head := UpToSlash(path);
    if AllSlashes(head) then head else Stripped(head)
  }

  /** A component a lookup is made of. */
  predicate Name(part: string) { part != [] && '/' !in part }

  /** A path with nothing to strip: the root, or one that starts with one slash and ends with none. */
  predicate Clean(path: string) {
    Absolute(path) && (path == "/" || (|path| > 1 && path[1] != '/' && !EndsInSlash(path)))
  }

  lemma RootIsClean()
    ensures Clean("/")
  {
  }

  lemma {:induction false} UpToSlashOf(head: string, part: string)
    requires '/' !in part && (head == [] || EndsInSlash(head))
    ensures UpToSlash(head + part) == head
  {
    if part == [] {
      assert head + part == head;
    } else {
      assert (head + part)[..|head + part| - 1] == head + part[..|part| - 1];
      UpToSlashOf(head, part[..|part| - 1]);
    }
  }

  /** A `..` undoes a step. */
  lemma UpUndoesStep(path: string, part: string)
    requires Clean(path) && Name(part)
    ensures Dirname(Join(path, part)) == path && Clean(Join(path, part))
  {
    if path == "/" {
      UpToSlashOf(path, part);
    } else {
      var head := path + "/";
      UpToSlashOf(head, part);
      assert head[..|head| - 1] == path && head[|path| - 1] != '/';
      assert Stripped(head) == Stripped(path) == path;
      assert Join(path, part) == head + part;
      assert Join(path, part)[|Join(path, part)| - 1] == part[|part| - 1];
    }
  }

  lemma {:induction false} UpToSlashIs(path: string)
    requires Absolute(path)
    ensures UpToSlash(path) != [] && UpToSlash(path) <= path && EndsInSlash(UpToSlash(path))
  {
    if !EndsInSlash(path) {
      UpToSlashIs(path[..|path| - 1]);
    }
  }

  lemma {:induction false} StrippedIs(s: string)
    requires Absolute(s) && !AllSlashes(s)
    ensures Stripped(s) != [] && Stripped(s) <= s && !EndsInSlash(Stripped(s))
  {
    if EndsInSlash(s) {
      StrippedIs(s[..|s| - 1]);
    }
  }

  /** A `..` leaves a clean path clean, and the root the root. */
  lemma UpStaysClean(path: string)
    requires Clean(path)
    ensures Clean(Dirname(path)) && (path == "/" ==> Dirname(path) == "/")
  {
    UpToSlashIs(path);
    var head := UpToSlash(path);
    assert |head| > 1 ==> head[1] == path[1];
    if AllSlashes(head) {
      assert head == "/";
    } else {
      StrippedIs(head);
    }
  }

  lemma {:induction false} SplitHasNoSlash(path: string)
    ensures forall k :: 0 <= k < |Split(path)| ==> '/' !in Split(path)[k]
  {
    if path != [] {
      SplitHasNoSlash(path[1..]);
    }
  }

  /** An absolute path is itself wherever it is joined; any other goes after the directory, a slash between unless
      there is one, or no directory. */
  lemma JoinIs(a: string, b: string)
    ensures b != "" && b[0] == '/' ==> Join(a, b) == b
    ensures !(b != "" && b[0] == '/') ==>
              a <= Join(a, b) && Join(a, b)[|a|..] == if a != "" && a[|a| - 1] != '/' then "/" + b else b
  {
  }

  /** Parts with a slash between. */
  function Rejoined(parts: seq<string>): string
    requires parts != []
  {
    if |parts| == 1 then parts[0] else parts[0] + "/" + Rejoined(parts[1..])
  }

  /** A split loses nothing: a slash between its parts gives the path back. */
  lemma {:induction false} SplitRejoins(path: string)
    ensures Rejoined(Split(path)) == path
  {
    if path != [] {
      var rest := Split(path[1..]);
      SplitRejoins(path[1..]);
      assert path == [path[0]] + path[1..];
      if path[0] == '/' {
        assert ([""] + rest)[1..] == rest;
      } else {
        var parts := [[path[0]] + rest[0]] + rest[1..];
        assert parts[1..] == rest[1..];
      }
    }
  }
}
