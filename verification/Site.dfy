/** What the startup read of the site's rules can end in (`SiteFile` and `SiteContext` in site.py). */
module Site {
  import opened Bytes
  import opened Display

  /** A file's name and text; `raw` is the name's octets, which identify and order it. */
  datatype SiteFile = SiteFile(name: string, text: string, raw: Bytes)

  datatype SiteContext = SiteContext(files: seq<SiteFile>, reason: string, failed: bool)

  const CONVENTION := "/etc/agents.d"
  const DETAIL_LIMIT := 80

  /** Where a read looked. */
  datatype Where = TheCluster | ThisHost

  function WhereText(where: Where): string {
    if where == TheCluster then "the cluster" else "this host"
  }

  function NoneServed(): string { "No site rules are served: " }

  function NothingReason(where: string): string {
    NoneServed() + CONVENTION + " on " + where + " holds no rules (no non-empty *.md file but AGENTS.md)."
  }

  function MissingReason(where: string): string {
    NoneServed() + CONVENTION + " does not exist on " + where + "."
  }

  /** `_detail` */
  function Detail(detail: string): string {
    Cut(Shown(detail), DETAIL_LIMIT)
  }

  function UnreadableStart(where: string): string {
    NoneServed() + CONVENTION + " on " + where + " could not be read ("
  }

  function UnreadableReason(where: string, detail: string): string {
    UnreadableStart(where) + Detail(detail) + ")."
  }

  /** `seconds` is the timeout as it is written. */
  function TimedOutReason(where: string, seconds: string): string {
    NoneServed() + "reading " + CONVENTION + " on " + where + " did not finish within " + seconds + " s."
  }

  /** The timeout of a read that was given none, as `:g` writes it. */
  const READ_TIMEOUT := "10"

  function Missing(where: string): SiteContext {
    SiteContext([], MissingReason(where), false)
  }

  function Unreadable(where: string, detail: string): SiteContext {
    SiteContext([], UnreadableReason(where, detail), true)
  }

  function TimedOut(where: string, seconds: string): SiteContext {
    SiteContext([], TimedOutReason(where, seconds), true)
  }

  /** `found` with no eligible file. */
  function Nothing(where: string): SiteContext {
    SiteContext([], NothingReason(where), false)
  }

  const EXCLUDED := "AGENTS.md"
  const NOT_FOR_EVERYONE := "not readable by every account"

  /** `_eligible` */
  predicate Eligible(name: string) {
    |name| >= 3 && name[|name| - 3..] == ".md" && name != EXCLUDED
  }

  /** A Markdown file's name, but for one. */
  lemma EligibleExactly(name: string)
    ensures Eligible(name) <==> name != "AGENTS.md" && exists stem :: name == stem + ".md"
  {
    if Eligible(name) {
      assert name == name[..|name| - 3] + ".md";
    }
    if stem :| name == stem + ".md" {
      assert name[|stem|..] == ".md";
    }
  }

  /** The characters `str.strip` takes off. */
  predicate IsSpace(c: char) {
    var code := c as int;
    || 0x09 <= code <= 0x0D || 0x1C <= code <= 0x20 || code == 0x85 || code == 0xA0 || code == 0x1680
    || 0x2000 <= code <= 0x200A || code == 0x2028 || code == 0x2029 || code == 0x202F || code == 0x205F || code == 0x3000
  }

  predicate Blank(text: string) { forall i :: 0 <= i < |text| ==> IsSpace(text[i]) }

  lemma BlankExactly(text: string)
    ensures Blank(text) <==> forall c :: c in text ==> IsSpace(c)
  {
    hide IsSpace;
  }

  // ----- the byte order of names -----

  predicate AtMost(a: Bytes, b: Bytes) {
    a == [] || (b != [] && (a[0] < b[0] || (a[0] == b[0] && AtMost(a[1..], b[1..]))))
  }

  lemma {:induction false} AtMostTotal(a: Bytes, b: Bytes)
    ensures AtMost(a, b) || AtMost(b, a)
    ensures AtMost(a, b) && AtMost(b, a) ==> a == b
  {
    if a != [] && b != [] && a[0] == b[0] {
      AtMostTotal(a[1..], b[1..]);
      assert a == [a[0]] + a[1..] && b == [b[0]] + b[1..];
    }
  }

  lemma {:induction false} AtMostTransitive(a: Bytes, b: Bytes, c: Bytes)
    requires AtMost(a, b) && AtMost(b, c)
    ensures AtMost(a, c)
  {
    if a != [] && a[0] == b[0] == c[0] {
      AtMostTransitive(a[1..], b[1..], c[1..]);
    }
  }

  /** The order is the lexical order of the octets: one is a start of the other, or is less where they first differ. */
  lemma {:induction false} AtMostIs(a: Bytes, b: Bytes)
    ensures AtMost(a, b) <==> a <= b || exists k :: 0 <= k < |a| && k < |b| && a[..k] == b[..k] && a[k] < b[k]
  {
    if a != [] && b != [] {
      if a[0] == b[0] {
        var c, d := a[1..], b[1..];
        AtMostIs(c, d);
        assert a == [a[0]] + c && b == [b[0]] + d;
        assert c <= d ==> a <= b;
        if k :| 0 <= k < |c| && k < |d| && c[..k] == d[..k] && c[k] < d[k] {
          assert a[..k + 1] == [a[0]] + c[..k] && b[..k + 1] == [b[0]] + d[..k] && a[k + 1] < b[k + 1];
        }
        if k :| 0 <= k < |a| && k < |b| && a[..k] == b[..k] && a[k] < b[k] {
          assert c[..k - 1] == a[..k][1..] && d[..k - 1] == b[..k][1..] && c[k - 1] < d[k - 1];
        }
      } else {
        assert a[..0] == b[..0];
        forall k | 0 < k <= |a| && k <= |b| ensures a[..k] != b[..k] {
          assert a[..k][0] == a[0] && b[..k][0] == b[0];
        }
      }
    }
  }

  predicate InOrder(files: seq<SiteFile>) {
    forall i, j :: 0 <= i < j < |files| ==> AtMost(files[i].raw, files[j].raw)
  }

  /** `f` after every file of `files` that is not past it. */
  function Inserted(files: seq<SiteFile>, f: SiteFile): seq<SiteFile> {
    if files == [] then [f]
    else
      var last := files[|files| - 1];
      if AtMost(last.raw, f.raw) then files + [f] else Inserted(files[..|files| - 1], f) + [last]
  }

  /** `sorted(files, key=lambda f: f.raw)` */
  function Sorted(files: seq<SiteFile>): seq<SiteFile> {
    if files == [] then [] else Inserted(Sorted(files[..|files| - 1]), files[|files| - 1])
  }

  lemma {:induction false} InsertedHolds(files: seq<SiteFile>, f: SiteFile)
    ensures multiset(Inserted(files, f)) == multiset(files) + multiset{f}
  {
    if files != [] {
      var front, last := files[..|files| - 1], files[|files| - 1];
      assert files == front + [last];
      InsertedHolds(front, f);
    }
  }

  lemma {:induction false} InsertedInOrder(files: seq<SiteFile>, f: SiteFile)
    requires InOrder(files)
    ensures InOrder(Inserted(files, f))
  {
    hide AtMost;
    if files != [] {
      var front, last := files[..|files| - 1], files[|files| - 1];
      AtMostTotal(last.raw, f.raw);
      if AtMost(last.raw, f.raw) {
        forall i | 0 <= i < |files| ensures AtMost(files[i].raw, f.raw) {
          if i < |files| - 1 { AtMostTransitive(files[i].raw, last.raw, f.raw); }
        }
      } else {
        InsertedInOrder(front, f);
        InsertedHolds(front, f);
        forall g | g in Inserted(front, f) ensures AtMost(g.raw, last.raw) {
          assert g in multiset(Inserted(front, f));
          assert g in front || g == f;
        }
      }
    }
  }

  lemma {:induction false} SortedIs(files: seq<SiteFile>)
    ensures InOrder(Sorted(files)) && multiset(Sorted(files)) == multiset(files)
  {
    hide AtMost;
    if files != [] {
      var front, last := files[..|files| - 1], files[|files| - 1];
      assert files == front + [last];
      SortedIs(front);
      InsertedInOrder(Sorted(front), last);
      InsertedHolds(Sorted(front), last);
    }
  }

  predicate DistinctNames(files: seq<SiteFile>) {
    forall i, j :: 0 <= i < j < |files| ==> files[i].raw != files[j].raw
  }

  /** A file of one listing is somewhere in the other, so not past its last. */
  lemma NotPastLast(files: seq<SiteFile>, f: SiteFile)
    requires InOrder(files) && f in multiset(files)
    ensures files != [] && AtMost(f.raw, files[|files| - 1].raw)
  {
    hide AtMost;
    assert f in files;
    var i :| 0 <= i < |files| && files[i] == f;
    AtMostTotal(f.raw, f.raw);
  }

  lemma WithoutLast(files: seq<SiteFile>)
    requires files != []
    ensures multiset(files[..|files| - 1]) == multiset(files) - multiset{files[|files| - 1]}
  {
    assert files == files[..|files| - 1] + [files[|files| - 1]];
  }

  predicate SameNameSameFile(files: seq<SiteFile>) {
    forall i, j :: 0 <= i < |files| && 0 <= j < |files| && files[i].raw == files[j].raw ==> files[i] == files[j]
  }

  lemma LastsAgree(a: seq<SiteFile>, b: seq<SiteFile>)
    requires InOrder(a) && InOrder(b) && multiset(a) == multiset(b) && SameNameSameFile(a) && a != [] && b != []
    ensures a[|a| - 1] == b[|b| - 1]
  {
    hide AtMost;
    var x, y := a[|a| - 1], b[|b| - 1];
    assert x in multiset(b) && y in multiset(a);
    NotPastLast(a, y);
    NotPastLast(b, x);
    AtMostTotal(x.raw, y.raw);
    assert y in a;
  }

  lemma FrontKeeps(files: seq<SiteFile>)
    requires files != []
    ensures InOrder(files) ==> InOrder(files[..|files| - 1])
    ensures SameNameSameFile(files) ==> SameNameSameFile(files[..|files| - 1])
  {
    hide AtMost;
  }

  /** One order only. */
  lemma {:induction false} OneOrder(a: seq<SiteFile>, b: seq<SiteFile>)
    requires InOrder(a) && InOrder(b) && multiset(a) == multiset(b) && SameNameSameFile(a)
    ensures a == b
  {
    hide AtMost, InOrder, SameNameSameFile;
    SameLength(a, b);
    if a != [] {
      WithoutLasts(a, b);
      FrontKeeps(a);
      FrontKeeps(b);
      OneOrder(a[..|a| - 1], b[..|b| - 1]);
      assert a == a[..|a| - 1] + [a[|a| - 1]] && b == b[..|b| - 1] + [b[|b| - 1]];
    }
  }

  lemma SameLength(a: seq<SiteFile>, b: seq<SiteFile>)
    requires multiset(a) == multiset(b)
    ensures |a| == |b|
  {
    assert |a| == |multiset(a)| == |multiset(b)| == |b|;
  }

  lemma WithoutLasts(a: seq<SiteFile>, b: seq<SiteFile>)
    requires InOrder(a) && InOrder(b) && multiset(a) == multiset(b) && SameNameSameFile(a) && a != [] && b != []
    ensures a[|a| - 1] == b[|b| - 1] && multiset(a[..|a| - 1]) == multiset(b[..|b| - 1])
  {
    hide AtMost, InOrder, SameNameSameFile;
    WithoutLast(a);
    WithoutLast(b);
    LastsAgree(a, b);
  }

  // ----- found -----

  function Nonblank(files: seq<SiteFile>): seq<SiteFile> {
    if files == [] then []
    else Nonblank(files[..|files| - 1]) + if Blank(files[|files| - 1].text) then [] else [files[|files| - 1]]
  }

  /** `found` */
  function FoundFiles(files: seq<SiteFile>, where: string): SiteContext {
    var kept := Sorted(Nonblank(files));
    if kept == [] then Nothing(where) else SiteContext(kept, "", false)
  }

  lemma {:induction false} NonblankCounts(files: seq<SiteFile>, f: SiteFile)
    ensures multiset(Nonblank(files))[f] == if Blank(f.text) then 0 else multiset(files)[f]
  {
    hide Blank;
    if files != [] {
      var front, last := files[..|files| - 1], files[|files| - 1];
      assert files == front + [last];
      NonblankCounts(front, f);
    }
  }

  /** What is found: the files that are not blank, each as often as it was read, in the byte order of
      their names. */
  lemma FoundIs(files: seq<SiteFile>, where: string)
    ensures InOrder(FoundFiles(files, where).files) && !FoundFiles(files, where).failed
    ensures FoundFiles(files, where).reason == if FoundFiles(files, where).files == [] then NothingReason(where) else ""
    ensures forall f :: multiset(FoundFiles(files, where).files)[f] == if Blank(f.text) then 0 else multiset(files)[f]
  {
    hide Blank, AtMost, NothingReason;
    SortedIs(Nonblank(files));
    forall f ensures multiset(Nonblank(files))[f] == if Blank(f.text) then 0 else multiset(files)[f] {
      NonblankCounts(files, f);
    }
  }

  /** The order the directory lists its files in is no matter. */
  lemma FoundAnyOrder(a: seq<SiteFile>, b: seq<SiteFile>, where: string)
    requires multiset(a) == multiset(b) && DistinctNames(a)
    ensures FoundFiles(a, where) == FoundFiles(b, where)
  {
    hide Blank, AtMost;
    var x, y := Nonblank(a), Nonblank(b);
    SortedIs(x);
    SortedIs(y);
    forall f ensures multiset(x)[f] == multiset(y)[f] {
      NonblankCounts(a, f);
      NonblankCounts(b, f);
    }
    assert multiset(x) == multiset(y);
    var s := Sorted(x);
    forall i, j | 0 <= i < |s| && 0 <= j < |s| && s[i].raw == s[j].raw ensures s[i] == s[j] {
      FromFiles(a, s[i]);
      FromFiles(a, s[j]);
    }
    OneOrder(s, Sorted(y));
  }

  lemma FromFiles(files: seq<SiteFile>, f: SiteFile)
    requires f in Sorted(Nonblank(files))
    ensures f in files && !Blank(f.text)
  {
    hide Blank, AtMost;
    SortedIs(Nonblank(files));
    assert f in multiset(Sorted(Nonblank(files)));
    NonblankCounts(files, f);
    assert f in multiset(files);
  }
}
