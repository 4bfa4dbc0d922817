/** The instructions served within a budget (`compose`, `minimum_budget`, `_reserve`, `_render` and
    `omission_note` in site.py). A selection says, file by file, whether its block is served; the note
    names the others. */
module Compose {
  import opened Display
  import opened Site

  type Selection = seq<bool>

  // ----- rendering -----

  function Join(separator: string, parts: seq<string>): string {
    if |parts| == 0 then ""
    else if |parts| == 1 then parts[0]
    else Join(separator, parts[..|parts| - 1]) + separator + parts[|parts| - 1]
  }

  function Total(parts: seq<string>): nat {
    if parts == [] then 0 else Total(parts[..|parts| - 1]) + Units(parts[|parts| - 1])
  }

  lemma {:induction false} UnitsJoin(separator: string, parts: seq<string>)
    requires Units(separator) == 2 && parts != []
    ensures Units(Join(separator, parts)) + 2 == Total(parts) + 2 * |parts|
  {
    var front := parts[..|parts| - 1];
    if |parts| == 1 {
      assert Total(front) == 0;
    } else {
      UnitsJoin(separator, front);
      UnitsConcat(Join(separator, front) + separator, parts[|parts| - 1]);
      UnitsConcat(Join(separator, front), separator);
    }
  }

  lemma TotalSnoc(parts: seq<string>, part: string)
    ensures Total(parts + [part]) == Total(parts) + Units(part)
  {
    assert (parts + [part])[..|parts|] == parts;
  }

  function HeaderStart(): string { "<!-- Source: " }
  function HeaderEnd(): string { " -->\n" }

  /** `SiteFile.block` */
  function Block(f: SiteFile): string {
    HeaderStart() + Shown(f.name) + HeaderEnd() + f.text
  }

  function NoteStart(): string { "Left out here for length: " }
  function NoteEnd(): string { ". Call the `cluster_context` tool for the full site context." }

  function ShownNames(names: seq<string>): (shown: seq<string>)
    ensures |shown| == |names|
  {
    seq(|names|, i requires 0 <= i < |names| => Shown(names[i]))
  }

  const COMMA := ", "
  const BLANK := "\n\n"

  /** `omission_note` */
  function Note(names: seq<string>): string {
    NoteStart() + Join(COMMA, ShownNames(names)) + NoteEnd()
  }

  /** `_head` */
  function Head(base: string): string {
    base + BLANK + "## Site context (" + CONVENTION + ")" + BLANK
  }

  function Blocks(files: seq<SiteFile>): (blocks: seq<string>)
    ensures |blocks| == |files|
  {
    seq(|files|, i requires 0 <= i < |files| => Block(files[i]))
  }

  /** `_render` */
  function Render(base: string, included: seq<SiteFile>, omitted: seq<string>): string {
    Head(base) + Join(BLANK, Blocks(included) + if omitted == [] then [] else [Note(omitted)])
  }

  // ----- selections -----

  /** The files at the positions taken, in order (of the first `|taken|` files). */
  function Included(files: seq<SiteFile>, taken: Selection): seq<SiteFile>
    requires |taken| <= |files|
  {
    if taken == [] then []
    else
      var last := |taken| - 1;
      Included(files, taken[..last]) + if taken[last] then [files[last]] else []
  }

  /** The names at the positions not taken, in order. */
  function Omitted(files: seq<SiteFile>, taken: Selection): seq<string>
    requires |taken| <= |files|
  {
    if taken == [] then []
    else
      var last := |taken| - 1;
      Omitted(files, taken[..last]) + if taken[last] then [] else [files[last].name]
  }

  function NoneTaken(n: nat): (s: Selection)
    ensures |s| == n
  {
    seq(n, _ => false)
  }

  function AllTaken(n: nat): (s: Selection)
    ensures |s| == n
  {
    seq(n, _ => true)
  }

  /** The form a selection is served in. */
  function Form(base: string, files: seq<SiteFile>, taken: Selection): string
    requires |taken| == |files|
  {
    Render(base, Included(files, taken), Omitted(files, taken))
  }

  predicate Fits(base: string, files: seq<SiteFile>, taken: Selection, budget: int)
    requires |taken| == |files|
  {
    Units(Form(base, files, taken)) <= budget
  }

  /** How many of the first `|taken|` positions are like `kind`. */
  function Count(taken: Selection, kind: bool): nat {
    if taken == [] then 0 else Count(taken[..|taken| - 1], kind) + if taken[|taken| - 1] == kind then 1 else 0
  }

  lemma {:induction false} Counts(files: seq<SiteFile>, taken: Selection)
    requires |taken| <= |files|
    ensures |Included(files, taken)| == Count(taken, true)
    ensures |Omitted(files, taken)| == Count(taken, false)
    ensures Count(taken, true) + Count(taken, false) == |taken|
  {
    if taken != [] {
      Counts(files, taken[..|taken| - 1]);
    }
  }

  /** Every file is in exactly one of the two, in order and by its position: the blocks hold the files
      taken, each after as many as were taken before it, and the note names the others likewise, even
      when names and texts repeat. */
  lemma {:induction false} EachFileOnce(files: seq<SiteFile>, taken: Selection, i: nat)
    requires i < |taken| <= |files|
    ensures |Included(files, taken)| + |Omitted(files, taken)| == |taken|
    ensures taken[i] ==> Count(taken[..i], true) < |Included(files, taken)|
                         && Included(files, taken)[Count(taken[..i], true)] == files[i]
    ensures !taken[i] ==> Count(taken[..i], false) < |Omitted(files, taken)|
                          && Omitted(files, taken)[Count(taken[..i], false)] == files[i].name
  {
    var last := |taken| - 1;
    Counts(files, taken);
    Counts(files, taken[..last]);
    if i < last {
      EachFileOnce(files, taken[..last], i);
      assert taken[..last][..i] == taken[..i];
    }
  }

  // ----- sizes -----

  /** What a file adds to the form, a separator counted: its block, or its name in the note. */
  function Share(f: SiteFile, taken: bool): nat {
    2 + if taken then Units(Block(f)) else Units(Shown(f.name))
  }

  function Weight(files: seq<SiteFile>, taken: Selection): nat
    requires |taken| <= |files|
  {
    if taken == [] then 0
    else Weight(files, taken[..|taken| - 1]) + Share(files[|taken| - 1], taken[|taken| - 1])
  }

  lemma SeparatorUnits()
    ensures Units(COMMA) == 2 && Units(BLANK) == 2
  {
    assert COMMA[1..] == [' '] && BLANK[1..] == ['\n'];
    assert [' '][1..] == [] && ['\n'][1..] == [];
  }

  /** A block outweighs its name in the note. */
  lemma BlockOutweighsName(f: SiteFile)
    ensures Units(Block(f)) > Units(Shown(f.name))
  {
    hide Shown, HeaderStart;
    UnitsConcat(HeaderStart() + Shown(f.name) + HeaderEnd(), f.text);
    UnitsConcat(HeaderStart() + Shown(f.name), HeaderEnd());
    UnitsConcat(HeaderStart(), Shown(f.name));
  }

  lemma {:induction false} WeighsParts(files: seq<SiteFile>, taken: Selection)
    requires |taken| <= |files|
    ensures Weight(files, taken) == Total(Blocks(Included(files, taken))) + 2 * |Included(files, taken)|
                                    + Total(ShownNames(Omitted(files, taken))) + 2 * |Omitted(files, taken)|
  {
    hide Units, Shown, Block;
    if taken != [] {
      var last := |taken| - 1;
      var rest := taken[..last];
      WeighsParts(files, rest);
      var included, omitted := Included(files, rest), Omitted(files, rest);
      if taken[last] {
        assert Blocks(included + [files[last]]) == Blocks(included) + [Block(files[last])];
        TotalSnoc(Blocks(included), Block(files[last]));
        assert Omitted(files, taken) == omitted;
      } else {
        assert ShownNames(omitted + [files[last].name]) == ShownNames(omitted) + [Shown(files[last].name)];
        TotalSnoc(ShownNames(omitted), Shown(files[last].name));
        assert Included(files, taken) == included;
      }
    }
  }

  /** The size of a form with a note. */
  lemma FormUnits(base: string, files: seq<SiteFile>, taken: Selection)
    requires |taken| == |files| && Omitted(files, taken) != []
    ensures Units(Form(base, files, taken)) + 2
         == Units(Head(base)) + Units(NoteStart()) + Units(NoteEnd()) + Weight(files, taken)
  {
    hide Head, NoteStart, NoteEnd, Units, Included, Omitted, Weight, Join, Shown, Block;
    var blocks, names := Blocks(Included(files, taken)), ShownNames(Omitted(files, taken));
    var note := Note(Omitted(files, taken));
    SeparatorUnits();
    WeighsParts(files, taken);
    UnitsConcat(Head(base), Join(BLANK, blocks + [note]));
    UnitsJoin(BLANK, blocks + [note]);
    TotalSnoc(blocks, note);
    UnitsConcat(NoteStart() + Join(COMMA, names), NoteEnd());
    UnitsConcat(NoteStart(), Join(COMMA, names));
    UnitsJoin(COMMA, names);
  }

  /** Everything one selection takes, the other does. */
  predicate Within(a: Selection, b: Selection) {
    |a| == |b| && forall i :: 0 <= i < |a| && a[i] ==> b[i]
  }

  lemma {:induction false} WeightGrows(files: seq<SiteFile>, a: Selection, b: Selection)
    requires Within(a, b) && |a| <= |files|
    ensures Weight(files, a) <= Weight(files, b)
  {
    hide Block, Units, Shown;
    if a != [] {
      var last := |a| - 1;
      WeightGrows(files, a[..last], b[..last]);
      BlockOutweighsName(files[last]);
    }
  }

  lemma {:induction false} OmittedNone(files: seq<SiteFile>, taken: Selection)
    requires |taken| <= |files|
    ensures Omitted(files, taken) == [] <==> taken == AllTaken(|taken|)
  {
    if taken != [] {
      var last := |taken| - 1;
      OmittedNone(files, taken[..last]);
      assert taken == taken[..last] + [taken[last]];
      assert AllTaken(|taken|) == AllTaken(last) + [true];
      if taken == AllTaken(|taken|) {
        assert taken[..last] == AllTaken(last);
      }
    }
  }

  lemma AllWithin(a: Selection, b: Selection)
    requires Within(a, b)
    ensures a == AllTaken(|a|) ==> b == AllTaken(|b|)
  {
  }

  /** A smaller selection is served in no more room, while the larger still leaves a file out. */
  lemma SizeGrows(base: string, files: seq<SiteFile>, a: Selection, b: Selection)
    requires Within(a, b) && |a| == |files| && b != AllTaken(|b|)
    ensures Units(Form(base, files, a)) <= Units(Form(base, files, b))
  {
    hide Form, Omitted, Weight;
    OmittedNone(files, a);
    OmittedNone(files, b);
    AllWithin(a, b);
    FormUnits(base, files, a);
    FormUnits(base, files, b);
    WeightGrows(files, a, b);
  }

  // ----- the budget -----

  function Max(a: int, b: int): int { if a >= b then a else b }
  function Min(a: int, b: int): int { if a <= b then a else b }

  function Filler(n: nat): string { seq(n, _ => 'x') }

  /** `_reserve` */
  function Reserve(where: string): int {
    Max(Max(Units(MissingReason(where)), Units(NothingReason(where))),
        Max(Units(UnreadableReason(where, Filler(DETAIL_LIMIT))), Units(TimedOutReason(where, READ_TIMEOUT))))
  }

  /** The base and the longest reason a read can end in. */
  function Floor(base: string): int {
    Units(Head(base)) + Max(Reserve(WhereText(TheCluster)), Reserve(WhereText(ThisHost)))
  }

  /** `minimum_budget` */
  function MinimumBudget(base: string, site: SiteContext): int {
    if site.files == [] then Max(Floor(base), Units(Head(base) + site.reason))
    else Max(Floor(base), Min(Units(Render(base, site.files, [])), Units(Render(base, [], Names(site.files)))))
  }

  function Names(files: seq<SiteFile>): (names: seq<string>)
    ensures |names| == |files|
  {
    seq(|files|, i requires 0 <= i < |files| => files[i].name)
  }

  lemma {:induction false} AllForm(files: seq<SiteFile>, n: nat)
    requires n <= |files|
    ensures Included(files, AllTaken(n)) == files[..n] && Omitted(files, AllTaken(n)) == []
    ensures Included(files, NoneTaken(n)) == [] && Omitted(files, NoneTaken(n)) == Names(files[..n])
  {
    if n > 0 {
      AllForm(files, n - 1);
      assert AllTaken(n)[..n - 1] == AllTaken(n - 1);
      assert NoneTaken(n)[..n - 1] == NoneTaken(n - 1);
      assert files[..n] == files[..n - 1] + [files[n - 1]];
      assert Names(files[..n]) == Names(files[..n - 1]) + [files[n - 1].name];
    }
  }

  /** The two forms `minimum_budget` measures: everything served, and everything named. */
  lemma Extremes(base: string, files: seq<SiteFile>)
    ensures Form(base, files, AllTaken(|files|)) == Render(base, files, [])
    ensures Form(base, files, NoneTaken(|files|)) == Render(base, [], Names(files))
  {
    hide Render;
    AllForm(files, |files|);
    assert files[..|files|] == files;
  }

  /** No selection is served in less room than the smaller of the two. */
  lemma SmallestForm(base: string, files: seq<SiteFile>, taken: Selection)
    requires |taken| == |files|
    ensures Units(Form(base, files, taken))
         >= Min(Units(Render(base, files, [])), Units(Render(base, [], Names(files))))
  {
    hide Form, Render;
    Extremes(base, files);
    if taken != AllTaken(|files|) {
      SizeGrows(base, files, NoneTaken(|files|), taken);
    }
  }

  /** A budget is refused exactly when it has no room for the base with some reason a read can end in,
      or for any selection at all. */
  lemma RefusedExactly(base: string, site: SiteContext, budget: int)
    requires site.files != []
    ensures budget < MinimumBudget(base, site)
       <==> budget < Floor(base) || forall taken: Selection | |taken| == |site.files| :: !Fits(base, site.files, taken, budget)
  {
    hide Form, Render, Floor;
    var files := site.files;
    Extremes(base, files);
    if budget < MinimumBudget(base, site) && budget >= Floor(base) {
      forall taken: Selection | |taken| == |files| ensures !Fits(base, files, taken, budget) {
        SmallestForm(base, files, taken);
      }
    } else if budget >= MinimumBudget(base, site) {
      assert Fits(base, files, AllTaken(|files|), budget) || Fits(base, files, NoneTaken(|files|), budget);
    }
  }

  // ----- the packing -----

  /** A selection of the first files, with every later file left out. */
  function Padded(taken: Selection, n: nat): (s: Selection)
    requires |taken| <= n
    ensures |s| == n
  {
    taken + NoneTaken(n - |taken|)
  }

  /** The packing from `taken` on: a file goes in if it fits beside the note naming every file not in. */
  function Packed(base: string, files: seq<SiteFile>, budget: int, taken: Selection): (s: Selection)
    requires |taken| <= |files|
    ensures |s| == |files|
    decreases |files| - |taken|
  {
    if |taken| == |files| then taken
    else Packed(base, files, budget, taken + [Fits(base, files, Padded(taken + [true], |files|), budget)])
  }

  function Chosen(base: string, files: seq<SiteFile>, budget: int): (s: Selection)
    ensures |s| == |files|
  {
    Packed(base, files, budget, [])
  }

  datatype Served = TooSmall(minimum: int) | Text(text: string)

  /** `compose` */
  function Composed(base: string, site: SiteContext, budget: int): Served {
    if budget < MinimumBudget(base, site) then TooSmall(MinimumBudget(base, site))
    else if site.files == [] then Text(Head(base) + site.reason)
    else if Fits(base, site.files, AllTaken(|site.files|), budget) then Text(Form(base, site.files, AllTaken(|site.files|)))
    else Text(Form(base, site.files, Chosen(base, site.files, budget)))
  }

  /** The packing keeps what it has, and at each position takes the file exactly when that fits. */
  lemma {:induction false} PackedAt(base: string, files: seq<SiteFile>, budget: int, taken: Selection, i: nat)
    requires |taken| <= |files| && i < |files|
    ensures var s := Packed(base, files, budget, taken);
            taken <= s && (i >= |taken| ==> s[i] == Fits(base, files, Padded(s[..i] + [true], |files|), budget))
    decreases |files| - |taken|
  {
    hide Fits;
    if |taken| < |files| {
      var next := taken + [Fits(base, files, Padded(taken + [true], |files|), budget)];
      PackedAt(base, files, budget, next, i);
      assert taken <= next;
      assert i == |taken| ==> Packed(base, files, budget, next)[..i] == taken;
    }
  }

  lemma {:induction false} PackedFits(base: string, files: seq<SiteFile>, budget: int, taken: Selection)
    requires |taken| <= |files| && Fits(base, files, Padded(taken, |files|), budget)
    ensures Fits(base, files, Packed(base, files, budget, taken), budget)
    decreases |files| - |taken|
  {
    hide Fits;
    assert |taken| == |files| ==> Padded(taken, |files|) == taken;
    if |taken| < |files| {
      var takes := Fits(base, files, Padded(taken + [true], |files|), budget);
      assert !takes ==> Padded(taken + [false], |files|) == Padded(taken, |files|);
      PackedFits(base, files, budget, taken + [takes]);
    }
  }

  /** The packing is the lexicographically greatest that fits: when the whole text does not, a selection
      that fits differs from the packing first at a file that the packing serves. */
  lemma PackingIsGreatest(base: string, files: seq<SiteFile>, budget: int, other: Selection, i: nat)
    requires !Fits(base, files, AllTaken(|files|), budget)
    requires |other| == |files| && Fits(base, files, other, budget)
    requires i < |files| && other[..i] == Chosen(base, files, budget)[..i] && other[i] != Chosen(base, files, budget)[i]
    ensures Chosen(base, files, budget)[i] && !other[i]
  {
    hide Form, Packed;
    var chosen := Chosen(base, files, budget);
    PackedAt(base, files, budget, [], i);
    var trial := Padded(chosen[..i] + [true], |files|);
    if other[i] {
      forall k | 0 <= k < |files| && trial[k] ensures other[k] {
        assert k < i ==> other[k] == other[..i][k] == chosen[..i][k] == trial[k];
      }
      SizeGrows(base, files, trial, other);
    }
  }

  /** Hence no file left out could be served as well. */
  lemma NothingCanBeAdded(base: string, files: seq<SiteFile>, budget: int, i: nat)
    requires !Fits(base, files, AllTaken(|files|), budget)
    requires i < |files| && !Chosen(base, files, budget)[i]
    ensures !Fits(base, files, Chosen(base, files, budget)[i := true], budget)
  {
    hide Fits, Packed, Chosen;
    var more := Chosen(base, files, budget)[i := true];
    if Fits(base, files, more, budget) {
      PackingIsGreatest(base, files, budget, more, i);
    }
  }

  /** What is served is within the budget. */
  lemma WithinBudget(base: string, site: SiteContext, budget: int)
    ensures Composed(base, site, budget).Text? ==> Units(Composed(base, site, budget).text) <= budget
    ensures Composed(base, site, budget).TooSmall? <==> budget < MinimumBudget(base, site)
  {
    hide Form, Render, Floor, Packed, Head;
    var files := site.files;
    if budget >= MinimumBudget(base, site) && files != [] && !Fits(base, files, AllTaken(|files|), budget) {
      Extremes(base, files);
      assert Padded([], |files|) == NoneTaken(|files|);
      PackedFits(base, files, budget, []);
    }
  }

  // ----- reads that fail -----

  lemma {:induction false} FillerUnits(n: nat)
    ensures Shown(Filler(n)) == Filler(n) && Units(Filler(n)) == n
  {
    if n > 0 {
      FillerUnits(n - 1);
      assert Filler(n)[1..] == Filler(n - 1);
    }
  }

  lemma UnreadableFits(where: string, detail: string)
    ensures Units(UnreadableReason(where, detail)) <= Units(UnreadableReason(where, Filler(DETAIL_LIMIT)))
  {
    hide Units, Shown, UnreadableStart;
    FillerUnits(DETAIL_LIMIT);
    CutIsLongest(Shown(detail), DETAIL_LIMIT);
    UnitsConcat(UnreadableStart(where) + Detail(detail), ").");
    UnitsConcat(UnreadableStart(where), Detail(detail));
    UnitsConcat(UnreadableStart(where) + Detail(Filler(DETAIL_LIMIT)), ").");
    UnitsConcat(UnreadableStart(where), Detail(Filler(DETAIL_LIMIT)));
  }

  /** The ways a read can end without a file to serve, at the default timeout. */
  datatype Emptiness = NoDirectory | NoRules | NotReadable(detail: string) | NotInTime

  function Empty(where: Where, end: Emptiness): SiteContext {
    match end
    case NoDirectory => Missing(WhereText(where))
    case NoRules => Nothing(WhereText(where))
    case NotReadable(detail) => Unreadable(WhereText(where), detail)
    case NotInTime => TimedOut(WhereText(where), READ_TIMEOUT)
  }

  /** None of them serves a file, and those that could not finish are the failures. */
  lemma EmptyIs(where: Where, end: Emptiness)
    ensures Empty(where, end).files == [] && (Empty(where, end).failed <==> end.NotReadable? || end.NotInTime?)
  {
    hide MissingReason, NothingReason, UnreadableReason, TimedOutReason;
  }

  /** A budget that serves a good read serves every read that fails or finds nothing too, whatever the
      reason: the server starts whatever the read finds. */
  lemma EveryReadFits(base: string, good: SiteContext, budget: int, where: Where, end: Emptiness)
    requires Composed(base, good, budget).Text?
    ensures Composed(base, Empty(where, end), budget) == Text(Head(base) + Empty(where, end).reason)
    ensures Units(Head(base) + Empty(where, end).reason) <= budget
  {
    hide Form, Render, Packed, Head, Units, MissingReason, NothingReason, UnreadableReason, TimedOutReason;
    UnitsConcat(Head(base), Empty(where, end).reason);
    if end.NotReadable? {
      UnreadableFits(WhereText(where), end.detail);
    }
    assert Units(Empty(where, end).reason) <= Reserve(WhereText(where));
    assert budget >= Floor(base);
  }

  // ----- what a form holds -----

  lemma {:induction false} JoinHolds(separator: string, parts: seq<string>, k: nat) returns (a: string, b: string)
    requires k < |parts|
    ensures Join(separator, parts) == a + parts[k] + b
    ensures k == |parts| - 1 ==> b == ""
  {
    if |parts| == 1 {
      a, b := "", "";
    } else if k == |parts| - 1 {
      a, b := Join(separator, parts[..k]) + separator, "";
    } else {
      var front := parts[..|parts| - 1];
      a, b := JoinHolds(separator, front, k);
      b := b + separator + parts[|parts| - 1];
    }
  }

  /** The base is never cut, and the block of a file served is in the form whole, after the heading. */
  lemma BlockIsServed(base: string, files: seq<SiteFile>, s: Selection, i: nat) returns (a: string, b: string)
    requires i < |s| == |files| && s[i]
    ensures base <= Form(base, files, s)
    ensures Form(base, files, s) == Head(base) + a + Block(files[i]) + b
  {
    hide Block, Note, Join;
    EachFileOnce(files, s, i);
    var included, omitted := Included(files, s), Omitted(files, s);
    var parts := Blocks(included) + if omitted == [] then [] else [Note(omitted)];
    a, b := JoinHolds(BLANK, parts, Count(s[..i], true));
    assert Head(base) + (a + Block(files[i]) + b) == Head(base) + a + Block(files[i]) + b;
  }

  /** A file left out is named, as names are shown, in the note, which ends the form. */
  lemma NameIsServed(base: string, files: seq<SiteFile>, s: Selection, i: nat) returns (a: string, c: string, d: string)
    requires i < |s| == |files| && !s[i]
    ensures Form(base, files, s) == Head(base) + a + Note(Omitted(files, s))
    ensures Note(Omitted(files, s)) == NoteStart() + c + Shown(files[i].name) + d + NoteEnd()
  {
    hide Shown, Join, Block, NoteStart, NoteEnd;
    EachFileOnce(files, s, i);
    var included, omitted := Included(files, s), Omitted(files, s);
    var parts := Blocks(included) + [Note(omitted)];
    var b;
    a, b := JoinHolds(BLANK, parts, |parts| - 1);
    assert Head(base) + (a + Note(omitted) + "") == Head(base) + a + Note(omitted);
    c, d := JoinHolds(COMMA, ShownNames(omitted), Count(s[..i], false));
  }

  // ----- what is refused, and what is served -----

  predicate EmptyFits(base: string, where: Where, end: Emptiness, budget: int) {
    Units(Head(base) + Empty(where, end).reason) <= budget
  }

  /** The floor is the room that the base and the longest reason some read can end in take. */
  lemma FloorExactly(base: string, budget: int)
    ensures budget >= Floor(base) <==> forall where, end :: EmptyFits(base, where, end, budget)
  {
    hide Head, Units, MissingReason, NothingReason, UnreadableReason, TimedOutReason;
    if budget >= Floor(base) {
      forall where, end ensures EmptyFits(base, where, end, budget) {
        UnitsConcat(Head(base), Empty(where, end).reason);
        if end.NotReadable? {
          UnreadableFits(WhereText(where), end.detail);
        }
        assert Units(Empty(where, end).reason) <= Reserve(WhereText(where));
      }
    } else {
      var where := if Reserve(WhereText(TheCluster)) >= Reserve(WhereText(ThisHost)) then TheCluster else ThisHost;
      var end := LongestReason(where);
      UnitsConcat(Head(base), Empty(where, end).reason);
      assert !EmptyFits(base, where, end, budget);
    }
  }

  lemma LongestReason(where: Where) returns (end: Emptiness)
    ensures Units(Empty(where, end).reason) == Reserve(WhereText(where))
  {
    hide Units, MissingReason, NothingReason, UnreadableReason, TimedOutReason;
    end := NoDirectory;
    var others := [NoRules, NotReadable(Filler(DETAIL_LIMIT)), NotInTime];
    for i := 0 to 3
      invariant Units(Empty(where, end).reason) >= Units(MissingReason(WhereText(where)))
      invariant forall j :: 0 <= j < i ==> Units(Empty(where, end).reason) >= Units(Empty(where, others[j]).reason)
      invariant end == NoDirectory || end in others
    {
      if Units(Empty(where, others[i]).reason) > Units(Empty(where, end).reason) {
        end := others[i];
      }
    }
    assert others[0] == NoRules && others[1] == NotReadable(Filler(DETAIL_LIMIT)) && others[2] == NotInTime;
  }

  /** A budget is refused when some read that finds nothing would not fit in it, or nothing of this site would. */
  ghost predicate Refused(base: string, site: SiteContext, budget: int) {
    || (exists where, end :: !EmptyFits(base, where, end, budget))
    || (if site.files == [] then Units(Head(base) + site.reason) > budget
        else forall taken: Selection | |taken| == |site.files| :: !Fits(base, site.files, taken, budget))
  }

  /** The minimum is the least budget that is not refused. */
  lemma MinimumIsLeast(base: string, site: SiteContext, budget: int)
    ensures budget < MinimumBudget(base, site) <==> Refused(base, site, budget)
  {
    hide Form, Render, Floor, Head, EmptyFits;
    FloorExactly(base, budget);
    if site.files != [] {
      RefusedExactly(base, site, budget);
    }
  }

  /** The selection to serve: everything, if it all fits; else one that fits, from which any other that fits
      differs first at a file this one serves, and to which no file can be added. */
  ghost predicate Greatest(base: string, files: seq<SiteFile>, budget: int, s: Selection)
    requires |s| == |files|
  {
    && Fits(base, files, s, budget)
    && (Fits(base, files, AllTaken(|files|), budget) ==> s == AllTaken(|files|))
    && (!Fits(base, files, AllTaken(|files|), budget) ==>
          && (forall other: Selection, i | |other| == |files| && Fits(base, files, other, budget) && 0 <= i < |files|
                && other[..i] == s[..i] && other[i] != s[i] :: s[i])
          && (forall i | 0 <= i < |files| && !s[i] :: !Fits(base, files, s[i := true], budget)))
  }

  lemma ChosenIsGreatest(base: string, files: seq<SiteFile>, budget: int)
    requires !Fits(base, files, AllTaken(|files|), budget) && Fits(base, files, Chosen(base, files, budget), budget)
    ensures Greatest(base, files, budget, Chosen(base, files, budget))
  {
    hide Fits, Packed;
    var s := Chosen(base, files, budget);
    forall other: Selection, i | |other| == |files| && Fits(base, files, other, budget) && 0 <= i < |files|
      && other[..i] == s[..i] && other[i] != s[i]
      ensures s[i] {
      PackingIsGreatest(base, files, budget, other, i);
    }
    forall i | 0 <= i < |files| && !s[i] ensures !Fits(base, files, s[i := true], budget) {
      NothingCanBeAdded(base, files, budget, i);
    }
  }

  /** What is served is the form of such a selection. */
  lemma ServesGreatest(base: string, site: SiteContext, budget: int) returns (s: Selection)
    requires site.files != [] && Composed(base, site, budget).Text?
    ensures |s| == |site.files| && Greatest(base, site.files, budget, s)
    ensures Composed(base, site, budget).text == Form(base, site.files, s)
  {
    hide Form, Render, Floor, Packed, Head;
    var files := site.files;
    WithinBudget(base, site, budget);
    if Fits(base, files, AllTaken(|files|), budget) {
      s := AllTaken(|files|);
    } else {
      s := Chosen(base, files, budget);
      ChosenIsGreatest(base, files, budget);
    }
  }

  // ----- compose as it runs -----

  /** The names of the files at positions outside `taken`, from position `k` on. */
  function NamesOutside(files: seq<SiteFile>, taken: set<nat>, n: nat): seq<string>
    requires n <= |files|
  {
    if n == 0 then [] else NamesOutside(files, taken, n - 1) + if n - 1 in taken then [] else [files[n - 1].name]
  }

  lemma {:induction false} OutsideIsOmitted(files: seq<SiteFile>, taken: set<nat>, s: Selection)
    requires |s| <= |files| && forall j :: 0 <= j < |s| ==> (j in taken <==> s[j])
    ensures NamesOutside(files, taken, |s|) == Omitted(files, s)
  {
    if s != [] {
      OutsideIsOmitted(files, taken, s[..|s| - 1]);
    }
  }

  lemma {:induction false} PaddedIncluded(files: seq<SiteFile>, s: Selection, n: nat)
    requires |s| <= n <= |files|
    ensures Included(files, Padded(s, n)) == Included(files, s)
    decreases n
  {
    if |s| < n {
      PaddedIncluded(files, s, n - 1);
      assert Padded(s, n)[..n - 1] == Padded(s, n - 1);
    } else {
      assert Padded(s, n) == s;
    }
  }

  /** A trial of `compose` is the form of the selection it tries. */
  lemma TrialForm(base: string, files: seq<SiteFile>, included: seq<SiteFile>, taken: set<nat>, s: Selection)
    requires |s| < |files| && included == Included(files, s)
    requires forall j: nat :: j in taken <==> j < |s| && s[j]
    ensures Render(base, included + [files[|s|]], NamesOutside(files, taken + {|s|}, |files|))
         == Form(base, files, Padded(s + [true], |files|))
  {
    hide Render;
    var next := s + [true];
    assert next[..|s|] == s;
    PaddedIncluded(files, next, |files|);
    OutsideIsOmitted(files, taken + {|s|}, Padded(next, |files|));
  }

  /** `compose`: files are taken by position. */
  method Compose(base: string, site: SiteContext, budget: int) returns (served: Served)
    ensures served.TooSmall? <==> Refused(base, site, budget)
    ensures served.TooSmall? ==> forall b :: Refused(base, site, b) <==> b < served.minimum
    ensures served.Text? && site.files == [] ==> served.text == Head(base) + site.reason
    ensures served.Text? && site.files != [] ==>
              exists s: Selection :: |s| == |site.files| && Greatest(base, site.files, budget, s)
                                     && served.text == Form(base, site.files, s)
  {
    hide Refused, Greatest, Form, Composed, MinimumBudget;
    served := Pack(base, site, budget);
    ComposedIs(base, site, budget);
    forall b ensures Refused(base, site, b) <==> b < MinimumBudget(base, site) {
      MinimumIsLeast(base, site, b);
    }
    if served.Text? && site.files != [] {
      ghost var s := ServesGreatest(base, site, budget);
    }
  }

  lemma ComposedIs(base: string, site: SiteContext, budget: int)
    ensures Composed(base, site, budget).TooSmall? <==> budget < MinimumBudget(base, site)
    ensures Composed(base, site, budget).TooSmall? ==> Composed(base, site, budget).minimum == MinimumBudget(base, site)
    ensures Composed(base, site, budget).Text? && site.files == [] ==>
              Composed(base, site, budget).text == Head(base) + site.reason
  {
    hide Form, MinimumBudget, Head, Fits;
  }

  /** Its loop, and the selection the loop makes. */
  method Pack(base: string, site: SiteContext, budget: int) returns (served: Served)
    ensures served == Composed(base, site, budget)
  {
    hide Render, Floor, Head, Packed, Units;
    var minimum := MinimumBudget(base, site);
    if budget < minimum {
      return TooSmall(minimum);
    }
    if site.files == [] {
      return Text(Head(base) + site.reason);
    }
    var files := site.files;
    Extremes(base, files);
    var whole := Render(base, files, []);
    if Units(whole) <= budget {
      return Text(whole);
    }
    var included: seq<SiteFile>, taken: set<nat> := [], {};
    ghost var s: Selection := [];
    for i := 0 to |files|
      invariant |s| == i && included == Included(files, s)
      invariant forall j: nat :: j in taken <==> j < |s| && s[j]
      invariant Packed(base, files, budget, s) == Chosen(base, files, budget)
    {
      TrialForm(base, files, included, taken, s);
      var trial := included + [files[i]];
      var rest := NamesOutside(files, taken + {i}, |files|);
      var fits := Units(Render(base, trial, rest)) <= budget;
      PackedStep(base, files, budget, s);
      assert (s + [fits])[..i] == s;
      if fits {
        included := trial;
        taken := taken + {i};
      }
      s := s + [fits];
    }
    PackedStep(base, files, budget, s);
    OutsideIsOmitted(files, taken, s);
    return Text(Render(base, included, NamesOutside(files, taken, |files|)));
  }

  lemma PackedStep(base: string, files: seq<SiteFile>, budget: int, s: Selection)
    requires |s| <= |files|
    ensures |s| == |files| ==> Packed(base, files, budget, s) == s
    ensures |s| < |files| ==> Packed(base, files, budget, s) == Packed(base, files, budget, s + [Fits(base, files, Padded(s + [true], |files|), budget)])
  {
    hide Fits;
  }
}
