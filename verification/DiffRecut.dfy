/** Re-cutting a whole-file patch to the lines around its changes. A line of the
    patch is text with its tag in front; a hunk header is told from other lines
    before this module sees them, and a cut stands for the header and the lines
    the program prints for it. */
module DiffRecut {
  import opened Wrappers

  datatype PatchLine = Header(oldStart: nat, text: string) | Other(text: string)

  datatype Hunk = Hunk(header: PatchLine, body: seq<string>)

  /** One printed hunk: `@@ -oldStart,oldCount +newStart,newCount @@` and its lines. */
  datatype Cut = Cut(oldStart: int, oldCount: nat, newStart: int, newCount: nat, span: seq<string>)

  datatype Recut = Recut(preamble: seq<string>, cuts: seq<Cut>, oldContent: seq<string>, newContent: seq<string>)

  // --- the two versions of the file ------------------------------------------

  predicate Tagged(lines: seq<string>) {
    forall i | 0 <= i < |lines| :: |lines[i]| > 0
  }

  predicate Changed(line: string)
    requires |line| > 0
  {
    line[0] != ' '
  }

  /** The lines that do not carry this tag, their own tags removed. */
  function Without(lines: seq<string>, tag: char): seq<string>
    requires Tagged(lines)
  {
    if lines == [] then []
    else
      var n := |lines| - 1;
      Without(lines[..n], tag) + (if lines[n][0] == tag then [] else [lines[n][1..]])
  }

  function Old(lines: seq<string>): seq<string>
    requires Tagged(lines)
  {
    Without(lines, '+')
  }

  function New(lines: seq<string>): seq<string>
    requires Tagged(lines)
  {
    Without(lines, '-')
  }

  lemma {:induction false} WithoutConcat(a: seq<string>, b: seq<string>, tag: char)
    requires Tagged(a) && Tagged(b)
    ensures Tagged(a + b) && Without(a + b, tag) == Without(a, tag) + Without(b, tag)
  {
    if b == [] {
      assert a + b == a;
    } else {
      var n := |b| - 1;
      WithoutConcat(a, b[..n], tag);
      assert (a + b)[..|a + b| - 1] == a + b[..n];
      assert Tagged(a + b);
    }
  }

  /** A stretch of the patch is a stretch of each version. */
  lemma StretchOf(lines: seq<string>, s: nat, e: nat, tag: char)
    requires Tagged(lines) && s <= e <= |lines|
    ensures var before, until := |Without(lines[..s], tag)|, |Without(lines[..e], tag)|;
            && before <= until <= |Without(lines, tag)|
            && Without(lines, tag)[before..until] == Without(lines[s..e], tag)
            && Without(lines[..e], tag) == Without(lines[..s], tag) + Without(lines[s..e], tag)
  {
    assert lines[..e] == lines[..s] + lines[s..e];
    assert lines == lines[..e] + lines[e..];
    WithoutConcat(lines[..s], lines[s..e], tag);
    WithoutConcat(lines[..e], lines[e..], tag);
  }

  /** Where nothing changed, both versions say the same. */
  lemma {:induction false} UnchangedAgrees(lines: seq<string>)
    requires Tagged(lines) && forall i | 0 <= i < |lines| :: !Changed(lines[i])
    ensures Old(lines) == New(lines)
  {
    if lines != [] {
      UnchangedAgrees(lines[..|lines| - 1]);
    }
  }

  // --- which lines survive ------------------------------------------------------

  predicate NearChange(lines: seq<string>, context: nat, i: int)
    requires Tagged(lines)
  {
    exists j | 0 <= j < |lines| :: Changed(lines[j]) && j - context <= i <= j + context
  }

  function Keep(lines: seq<string>, context: nat): seq<bool>
    requires Tagged(lines)
  {
    seq(|lines|, i requires 0 <= i < |lines| => NearChange(lines, context, i))
  }

  // --- the cuts -------------------------------------------------------------------

  /** A side without lines starts at the line before it. */
  function StartOf(before: nat, count: nat): nat {
    if count == 0 then before else before + 1
  }

  function CutOf(lines: seq<string>, s: nat, e: nat): Cut
    requires Tagged(lines) && s <= e <= |lines|
  {
    var span := lines[s..e];
    Cut(StartOf(|Old(lines[..s])|, |Old(span)|), |Old(span)|, StartOf(|New(lines[..s])|, |New(span)|), |New(span)|,
      span)
  }

  function RunEnd(keep: seq<bool>, i: nat): (e: nat)
    requires i <= |keep|
    ensures i <= e <= |keep| && (e < |keep| ==> !keep[e])
    ensures forall k | i <= k < e :: keep[k]
    decreases |keep| - i
  {
    if i < |keep| && keep[i] then RunEnd(keep, i + 1) else i
  }

  /** One cut for every run of kept lines from `i` on. */
  function Cuts(lines: seq<string>, keep: seq<bool>, i: nat): seq<Cut>
    requires Tagged(lines) && |keep| == |lines| && i <= |lines|
    decreases |lines| - i
  {
    if i == |lines| then []
    else if !keep[i] then Cuts(lines, keep, i + 1)
    else [CutOf(lines, i, RunEnd(keep, i + 1))] + Cuts(lines, keep, RunEnd(keep, i + 1))
  }

  // --- what applying a patch means ----------------------------------------------------

  /** How many lines precede a side of a hunk. */
  function Before(start: int, count: nat): int {
    if count == 0 then start else start - 1
  }

  /** Apply hunk after hunk: copy up to the hunk, check that both of its headers
      and all of its old lines are right, and put its new lines in their place.
      `pos` old lines have been used up, and `out` is the result so far. */
  function Apply(base: seq<string>, cuts: seq<Cut>, pos: nat, out: seq<string>): Option<seq<string>>
    requires pos <= |base|
    decreases |cuts|
  {
    if cuts == [] then Some(out + base[pos..])
    else
      var c := cuts[0];
      var at := Before(c.oldStart, c.oldCount);
      if !(pos <= at && at + c.oldCount <= |base| && Tagged(c.span)) then None
      else
        var copied := out + base[pos..at];
        if |copied| != Before(c.newStart, c.newCount) || |New(c.span)| != c.newCount
           || Old(c.span) != base[at..at + c.oldCount]
        then None
        else Apply(base, cuts[1..], at + c.oldCount, copied + New(c.span))
  }

  /** Across a stretch where nothing changed, the new version follows the old. */
  lemma GapIsCopied(lines: seq<string>, gap: nat, i: nat)
    requires Tagged(lines) && gap <= i <= |lines| && forall k | gap <= k < i :: !Changed(lines[k])
    ensures |Old(lines[..gap])| <= |Old(lines[..i])| <= |Old(lines)|
    ensures New(lines[..i]) == New(lines[..gap]) + Old(lines)[|Old(lines[..gap])|..|Old(lines[..i])|]
  {
    StretchOf(lines, gap, i, '+');
    StretchOf(lines, gap, i, '-');
    UnchangedAgrees(lines[gap..i]);
  }

  lemma RunIsReplaced(lines: seq<string>, i: nat, e: nat)
    requires Tagged(lines) && i <= e <= |lines|
    ensures |Old(lines[..i])| <= |Old(lines[..e])| <= |Old(lines)|
    ensures Old(lines)[|Old(lines[..i])|..|Old(lines[..e])|] == Old(lines[i..e])
    ensures New(lines[..e]) == New(lines[..i]) + New(lines[i..e])
  {
    StretchOf(lines, i, e, '+');
    StretchOf(lines, i, e, '-');
  }

  lemma {:induction false} ApplyFrom(lines: seq<string>, keep: seq<bool>, gap: nat, i: nat)
    requires Tagged(lines) && |keep| == |lines| && gap <= i <= |lines|
    requires forall k | 0 <= k < |lines| && !keep[k] :: !Changed(lines[k])
    requires forall k | gap <= k < i :: !keep[k]
    ensures |Old(lines[..gap])| <= |Old(lines)|
    ensures Apply(Old(lines), Cuts(lines, keep, i), |Old(lines[..gap])|, New(lines[..gap])) == Some(New(lines))
    decreases |lines| - i
  {
    GapIsCopied(lines, gap, i);
    hide Old, New, Changed;
    if i == |lines| {
      hide CutOf, RunEnd;
      assert lines[..i] == lines;
      ApplyNothing(Old(lines), |Old(lines[..gap])|, New(lines[..gap]));
      assert Old(lines)[|Old(lines[..gap])|..|Old(lines)|] == Old(lines)[|Old(lines[..gap])|..];
    } else if !keep[i] {
      hide Apply;
      ApplyFrom(lines, keep, gap, i + 1);
    } else {
      hide Apply;
      var e := RunEnd(keep, i + 1);
      RunIsReplaced(lines, i, e);
      ApplyFrom(lines, keep, e, e);
      ApplyOne(lines, keep, gap, i, e);
    }
  }

  lemma ApplyNothing(base: seq<string>, pos: nat, out: seq<string>)
    requires pos <= |base|
    ensures Apply(base, [], pos, out) == Some(out + base[pos..])
  {}

  lemma ApplyOne(lines: seq<string>, keep: seq<bool>, gap: nat, i: nat, e: nat)
    requires Tagged(lines) && |keep| == |lines| && gap <= i < e <= |lines| && keep[i] && e == RunEnd(keep, i + 1)
    requires |Old(lines[..gap])| <= |Old(lines[..i])| <= |Old(lines[..e])| <= |Old(lines)|
    requires New(lines[..i]) == New(lines[..gap]) + Old(lines)[|Old(lines[..gap])|..|Old(lines[..i])|]
    requires Old(lines)[|Old(lines[..i])|..|Old(lines[..e])|] == Old(lines[i..e])
    requires New(lines[..e]) == New(lines[..i]) + New(lines[i..e])
    ensures Apply(Old(lines), Cuts(lines, keep, i), |Old(lines[..gap])|, New(lines[..gap])) ==
            Apply(Old(lines), Cuts(lines, keep, e), |Old(lines[..e])|, New(lines[..e]))
  {
    hide Old, New;
    var cuts := Cuts(lines, keep, i);
    assert cuts[0] == CutOf(lines, i, e) && cuts[1..] == Cuts(lines, keep, e);
  }

  /** For every patch body and every context width: applying the re-cut hunks to
      the old version gives the new version, with every start, every count and
      every old line checked on the way. */
  lemma RecutAppliesToTheOldVersion(lines: seq<string>, context: nat)
    requires Tagged(lines)
    ensures Apply(Old(lines), Cuts(lines, Keep(lines, context), 0), 0, []) == Some(New(lines))
  {
    var keep := Keep(lines, context);
    forall k | 0 <= k < |lines| && !keep[k] ensures !Changed(lines[k]) {
      assert Changed(lines[k]) ==> NearChange(lines, context, k);
    }
    ApplyFrom(lines, keep, 0, 0);
    assert lines[..0] == [];
  }

  // --- the hunks against each other -----------------------------------------------------

  function OldAt(c: Cut): int { Before(c.oldStart, c.oldCount) }

  function NewAt(c: Cut): int { Before(c.newStart, c.newCount) }

  /** On both sides the next hunk begins at least one line after this one ends. */
  predicate Follows(c: Cut, d: Cut) {
    OldAt(c) + c.oldCount < OldAt(d) && NewAt(c) + c.newCount < NewAt(d)
  }

  lemma {:induction false} CutsStartAfter(lines: seq<string>, keep: seq<bool>, i: nat)
    requires Tagged(lines) && |keep| == |lines| && i <= |lines|
    ensures Cuts(lines, keep, i) != [] ==>
              && |Old(lines[..i])| <= OldAt(Cuts(lines, keep, i)[0])
              && |New(lines[..i])| <= NewAt(Cuts(lines, keep, i)[0])
    decreases |lines| - i
  {
    if i < |lines| && !keep[i] {
      CutsStartAfter(lines, keep, i + 1);
      StretchOf(lines, i, i + 1, '+');
      StretchOf(lines, i, i + 1, '-');
    }
  }

  /** The hunks are disjoint and increasing in the old file and in the new. */
  lemma {:induction false} CutsAreApart(lines: seq<string>, keep: seq<bool>, i: nat, k: nat)
    requires Tagged(lines) && |keep| == |lines| && i <= |lines| && k + 1 < |Cuts(lines, keep, i)|
    requires forall j | 0 <= j < |lines| && !keep[j] :: !Changed(lines[j])
    ensures Follows(Cuts(lines, keep, i)[k], Cuts(lines, keep, i)[k + 1])
    decreases |lines| - i
  {
    if !keep[i] {
      CutsAreApart(lines, keep, i + 1, k);
    } else {
      var e := RunEnd(keep, i + 1);
      if k > 0 {
        CutsAreApart(lines, keep, e, k - 1);
      } else {
        assert !keep[e] && !Changed(lines[e]);
        CutsStartAfter(lines, keep, e + 1);
        GapAfter(lines, i, e);
      }
    }
  }

  lemma GapAfter(lines: seq<string>, i: nat, e: nat)
    requires Tagged(lines) && i < e < |lines| && !Changed(lines[e])
    ensures var c := CutOf(lines, i, e);
            && |Old(lines[..e + 1])| == OldAt(c) + c.oldCount + 1
            && |New(lines[..e + 1])| == NewAt(c) + c.newCount + 1
  {
    StretchOf(lines, i, e, '+');
    StretchOf(lines, i, e, '-');
    assert lines[..e + 1][..e] == lines[..e];
  }

  // --- nothing else is dropped -------------------------------------------------------------

  function Spans(cuts: seq<Cut>): seq<string> {
    if cuts == [] then [] else cuts[0].span + Spans(cuts[1..])
  }

  /** The lines the flags keep, from `i` on. */
  function Kept(lines: seq<string>, keep: seq<bool>, i: nat): seq<string>
    requires |keep| == |lines| && i <= |lines|
    decreases |lines| - i
  {
    if i == |lines| then [] else (if keep[i] then [lines[i]] else []) + Kept(lines, keep, i + 1)
  }

  lemma {:induction false} KeptRun(lines: seq<string>, keep: seq<bool>, i: nat, e: nat)
    requires |keep| == |lines| && i <= e <= |lines| && forall k | i <= k < e :: keep[k]
    ensures Kept(lines, keep, i) == lines[i..e] + Kept(lines, keep, e)
    decreases e - i
  {
    if i < e {
      KeptRun(lines, keep, i + 1, e);
      StretchStarts(lines, i, e);
      ConcatAssociates([lines[i]], lines[i + 1..e], Kept(lines, keep, e));
    } else {
      assert lines[i..e] == [];
    }
  }

  /** The hunks together hold exactly the lines within the context width of a
      change, in order. */
  lemma {:induction false} CutsHoldTheKeptLines(lines: seq<string>, keep: seq<bool>, i: nat)
    requires Tagged(lines) && |keep| == |lines| && i <= |lines|
    ensures Spans(Cuts(lines, keep, i)) == Kept(lines, keep, i)
    decreases |lines| - i
  {
    if i < |lines| {
      if !keep[i] {
        CutsHoldTheKeptLines(lines, keep, i + 1);
      } else {
        var e := RunEnd(keep, i + 1);
        CutsHoldTheKeptLines(lines, keep, e);
        KeptRun(lines, keep, i, e);
        var cuts := Cuts(lines, keep, i);
        assert cuts[1..] == Cuts(lines, keep, e);
      }
    }
  }

  // --- reading the patch -----------------------------------------------------------------------

  function AsOther(lines: seq<string>): seq<PatchLine> {
    seq(|lines|, i requires 0 <= i < |lines| => Other(lines[i]))
  }

  function Rejoined(hunks: seq<Hunk>): seq<PatchLine> {
    if hunks == [] then []
    else
      var n := |hunks| - 1;
      Rejoined(hunks[..n]) + [hunks[n].header] + AsOther(hunks[n].body)
  }

  lemma RejoinLast(hunks: seq<Hunk>, text: string)
    requires hunks != []
    ensures var n, last := |hunks| - 1, hunks[|hunks| - 1];
            Rejoined(hunks[n := last.(body := last.body + [text])]) == Rejoined(hunks) + [Other(text)]
  {
    var n, last := |hunks| - 1, hunks[|hunks| - 1];
    var longer := hunks[n := last.(body := last.body + [text])];
    assert longer[..n] == hunks[..n];
    OtherOneMore(last.body, text);
    ConcatAssociates(Rejoined(hunks[..n]) + [last.header], AsOther(last.body), [Other(text)]);
  }

  lemma RejoinNew(hunks: seq<Hunk>, header: PatchLine)
    ensures Rejoined(hunks + [Hunk(header, [])]) == Rejoined(hunks) + [header]
  {
    var longer := hunks + [Hunk(header, [])];
    assert longer[..|hunks|] == hunks && AsOther([]) == [];
    assert Rejoined(hunks) + [header] + [] == Rejoined(hunks) + [header];
  }

  lemma OtherOneMore(lines: seq<string>, text: string)
    ensures AsOther(lines + [text]) == AsOther(lines) + [Other(text)]
  {}

  datatype Parsed = Parsed(preamble: seq<string>, hunks: seq<Hunk>)

  /** A header opens a hunk; any other line belongs to the latest hunk, or to the
      preamble. */
  function AddLine(p: Parsed, line: PatchLine): Parsed {
    var n := |p.hunks|;
    if line.Header? then p.(hunks := p.hunks + [Hunk(line, [])])
    else if n == 0 then p.(preamble := p.preamble + [line.text])
    else p.(hunks := p.hunks[n - 1 := p.hunks[n - 1].(body := p.hunks[n - 1].body + [line.text])])
  }

  function Parse(patch: seq<PatchLine>): Parsed {
    if patch == [] then Parsed([], []) else AddLine(Parse(patch[..|patch| - 1]), patch[|patch| - 1])
  }

  function Printed(p: Parsed): seq<PatchLine> {
    AsOther(p.preamble) + Rejoined(p.hunks)
  }

  ghost predicate Headed(hunks: seq<Hunk>) {
    forall h | h in hunks :: h.header.Header?
  }

  lemma AddingPrints(p: Parsed, line: PatchLine)
    requires Headed(p.hunks)
    ensures Printed(AddLine(p, line)) == Printed(p) + [line] && Headed(AddLine(p, line).hunks)
  {
    ConcatAssociates(AsOther(p.preamble), Rejoined(p.hunks), [line]);
    if line.Header? {
      RejoinNew(p.hunks, line);
    } else if |p.hunks| == 0 {
      OtherOneMore(p.preamble, line.text);
      ConcatAssociates(AsOther(p.preamble), [line], Rejoined(p.hunks));
    } else {
      RejoinLast(p.hunks, line.text);
    }
    hide AsOther, Rejoined;
  }

  /** Printing the pieces gives the patch back, and every piece has its header. */
  lemma {:induction false} ParsingIsUndone(patch: seq<PatchLine>)
    ensures Printed(Parse(patch)) == patch && Headed(Parse(patch).hunks)
  {
    if patch != [] {
      hide AddLine, Printed, Headed;
      var front, line := patch[..|patch| - 1], patch[|patch| - 1];
      ParsingIsUndone(front);
      AddingPrints(Parse(front), line);
      assert patch == front + [line];
    }
  }

  method SplitHunks(patch: seq<PatchLine>) returns (preamble: seq<string>, hunks: seq<Hunk>)
    ensures Parsed(preamble, hunks) == Parse(patch)
    ensures Printed(Parsed(preamble, hunks)) == patch && Headed(hunks)
  {
    preamble, hunks := [], [];
    for i := 0 to |patch|
      invariant Parsed(preamble, hunks) == Parse(patch[..i])
    {
      var line := patch[i];
      assert patch[..i + 1][..i] == patch[..i];
      if line.Header? {
        hunks := hunks + [Hunk(line, [])];
      } else if |hunks| == 0 {
        preamble := preamble + [line.text];
      } else {
        var last := hunks[|hunks| - 1];
        hunks := hunks[|hunks| - 1 := last.(body := last.body + [line.text])];
      }
    }
    assert patch[..|patch|] == patch;
    ParsingIsUndone(patch);
  }

  // --- the recut ----------------------------------------------------------------------------------

  /** The body without empty lines and without the marker of a missing newline. */
  function Significant(body: seq<string>): (lines: seq<string>)
    ensures Tagged(lines)
  {
    if body == [] then []
    else
      var n := |body| - 1;
      Significant(body[..n]) + (if |body[n]| > 0 && body[n][0] != '\\' then [body[n]] else [])
  }

  predicate IsSignificant(line: string) {
    line != "" && line[0] != '\\'
  }

  /** `lines` are exactly the significant lines of the body, each once, in order; `at`
      tells where they stand. */
  ghost predicate Picks(body: seq<string>, lines: seq<string>, at: seq<nat>) {
    && |at| == |lines|
    && (forall k | 0 <= k < |at| :: at[k] < |body| && lines[k] == body[at[k]])
    && (forall j, k | 0 <= j < k < |at| :: at[j] < at[k])
    && (forall i: nat | i < |body| :: i in at <==> IsSignificant(body[i]))
  }

  lemma PicksOneMore(body: seq<string>, lines: seq<string>, at: seq<nat>, line: string)
    requires Picks(body, lines, at)
    ensures IsSignificant(line) ==> Picks(body + [line], lines + [line], at + [|body|])
    ensures !IsSignificant(line) ==> Picks(body + [line], lines, at)
  {
    hide IsSignificant;
    var more := at + [|body|];
    forall i: nat | i < |body| ensures i in more <==> i in at {}
    assert more[|at|] == |body|;
  }

  lemma {:induction false} SignificantLinesAre(body: seq<string>) returns (at: seq<nat>)
    ensures Picks(body, Significant(body), at)
  {
    hide Picks;
    if body == [] {
      at := [];
      NothingIsPicked(body);
    } else {
      var n := |body| - 1;
      var front, line := body[..n], body[n];
      at := SignificantLinesAre(front);
      PicksOneMore(front, Significant(front), at, line);
      assert body == front + [line];
      if IsSignificant(line) {
        assert Significant(body) == Significant(front) + [line];
        at := at + [|front|];
      } else {
        assert Significant(body) == Significant(front);
      }
    }
  }

  lemma NothingIsPicked(body: seq<string>)
    requires body == []
    ensures Picks(body, Significant(body), [])
  {}

  ghost predicate AnyChange(lines: seq<string>)
    requires Tagged(lines)
  {
    exists i | 0 <= i < |lines| :: Changed(lines[i])
  }

  /** Only a single hunk from line 1 that changes something can be re-cut. */
  ghost predicate CanRecut(hunks: seq<Hunk>) {
    && |hunks| == 1 && hunks[0].header.Header? && hunks[0].header.oldStart == 1
    && AnyChange(Significant(hunks[0].body))
  }

  method RecutPatch(patch: seq<PatchLine>, context: nat) returns (r: Option<Recut>)
    ensures r.Some? <==> CanRecut(Parse(patch).hunks)
    ensures r.Some? ==>
              var lines := Significant(Parse(patch).hunks[0].body);
              && r.value == Recut(Parse(patch).preamble, Cuts(lines, Keep(lines, context), 0), Old(lines), New(lines))
              && Apply(r.value.oldContent, r.value.cuts, 0, []) == Some(r.value.newContent)
  {
    var preamble, hunks := SplitHunks(patch);
    if |hunks| != 1 || hunks[0].header.oldStart != 1 {
      return None;
    }
    var lines := Filter(hunks[0].body);
    var changes := HasChange(lines);
    if !changes {
      return None;
    }
    hide Parse, Cuts, Keep, Apply, Old, New, Significant;
    var oldLines, newLines, oldNumbers, newNumbers := Versions(lines);
    var keep := MarkKept(lines, context);
    var cuts := CutKept(lines, keep, oldNumbers, newNumbers);
    RecutAppliesToTheOldVersion(lines, context);
    r := Some(Recut(preamble, cuts, oldLines, newLines));
  }

  method HasChange(lines: seq<string>) returns (changes: bool)
    requires Tagged(lines)
    ensures changes <==> AnyChange(lines)
  {
    changes := false;
    for i := 0 to |lines|
      invariant changes <==> exists j | 0 <= j < i :: Changed(lines[j])
    {
      if lines[i][0] != ' ' {
        changes := true;
      }
    }
  }

  method Filter(body: seq<string>) returns (lines: seq<string>)
    ensures lines == Significant(body)
  {
    lines := [];
    for i := 0 to |body|
      invariant lines == Significant(body[..i])
    {
      assert body[..i + 1][..i] == body[..i];
      if |body[i]| > 0 && body[i][0] != '\\' {
        lines := lines + [body[i]];
      }
    }
    assert body[..|body|] == body;
  }

  /** Both versions of the file, and the number every patch line has in each. */
  method Versions(lines: seq<string>)
    returns (oldLines: seq<string>, newLines: seq<string>, oldNumbers: seq<nat>, newNumbers: seq<nat>)
    requires Tagged(lines)
    ensures oldLines == Old(lines) && newLines == New(lines)
    ensures |oldNumbers| == |newNumbers| == |lines|
    ensures forall i | 0 <= i < |lines| :: oldNumbers[i] == |Old(lines[..i])| + 1
              && newNumbers[i] == |New(lines[..i])| + 1
  {
    oldLines, newLines, oldNumbers, newNumbers := [], [], [], [];
    for i := 0 to |lines|
      invariant oldLines == Old(lines[..i]) && newLines == New(lines[..i])
      invariant |oldNumbers| == |newNumbers| == i
      invariant forall k | 0 <= k < i :: oldNumbers[k] == |Old(lines[..k])| + 1
                  && newNumbers[k] == |New(lines[..k])| + 1
    {
      assert lines[..i + 1][..i] == lines[..i];
      var line := lines[i];
      var text := line[1..];
      oldNumbers := oldNumbers + [|oldLines| + 1];
      newNumbers := newNumbers + [|newLines| + 1];
      if line[0] == '-' {
        oldLines := oldLines + [text];
      } else if line[0] == '+' {
        newLines := newLines + [text];
      } else {
        oldLines := oldLines + [text];
        newLines := newLines + [text];
      }
    }
    assert lines[..|lines|] == lines;
  }

  /** Flag every line within the context width of a change, in place. */
  method MarkKept(lines: seq<string>, context: nat) returns (keep: array<bool>)
    requires Tagged(lines)
    ensures fresh(keep) && keep[..] == Keep(lines, context)
  {
    keep := new bool[|lines|](_ => false);
    for i := 0 to |lines|
      invariant forall k | 0 <= k < |lines| ::
                  keep[k] <==> exists j | 0 <= j < i :: Changed(lines[j]) && j - context <= k <= j + context
    {
      if lines[i][0] != ' ' {
        var first := if i < context then 0 else i - context;
        var last := if i + context < |lines| then i + context else |lines| - 1;
        for near := first to last + 1
          invariant forall k | 0 <= k < |lines| ::
                      keep[k] <==> (first <= k < near)
                                   || exists j | 0 <= j < i :: Changed(lines[j]) && j - context <= k <= j + context
        {
          keep[near] := true;
        }
      }
    }
  }

  /** Collect the runs of flagged lines as hunks. */
  method CutKept(lines: seq<string>, keep: array<bool>, oldNumbers: seq<nat>, newNumbers: seq<nat>)
    returns (cuts: seq<Cut>)
    requires Tagged(lines) && keep.Length == |lines| == |oldNumbers| == |newNumbers|
    requires forall i | 0 <= i < |lines| :: oldNumbers[i] == |Old(lines[..i])| + 1
               && newNumbers[i] == |New(lines[..i])| + 1
    ensures cuts == Cuts(lines, keep[..], 0)
  {
    cuts := [];
    var index := 0;
    while index < |lines|
      invariant index <= |lines|
      invariant cuts + Cuts(lines, keep[..], index) == Cuts(lines, keep[..], 0)
    {
      if !keep[index] {
        index := index + 1;
        continue;
      }
      var start := index;
      while index + 1 < |lines| && keep[index + 1]
        invariant start <= index < |lines|
        invariant RunEnd(keep[..], start + 1) == RunEnd(keep[..], index + 1)
      {
        index := index + 1;
      }
      var span := lines[start..index + 1];
      var oldCount := CountWithout(span, '+');
      var newCount := CountWithout(span, '-');
      var oldStart := if oldCount == 0 then oldNumbers[start] - 1 else oldNumbers[start];
      var newStart := if newCount == 0 then newNumbers[start] - 1 else newNumbers[start];
      ghost var rest := Cuts(lines, keep[..], index + 1);
      assert Cuts(lines, keep[..], start) == [CutOf(lines, start, index + 1)] + rest;
      assert cuts + ([CutOf(lines, start, index + 1)] + rest) == cuts + [CutOf(lines, start, index + 1)] + rest;
      cuts := cuts + [Cut(oldStart, oldCount, newStart, newCount, span)];
      index := index + 1;
    }
  }

  method CountWithout(span: seq<string>, tag: char) returns (count: nat)
    requires Tagged(span)
    ensures count == |Without(span, tag)|
  {
    count := 0;
    for i := 0 to |span|
      invariant count == |Without(span[..i], tag)|
    {
      assert span[..i + 1][..i] == span[..i];
      if span[i][0] != tag {
        count := count + 1;
      }
    }
    assert span[..|span|] == span;
  }
}
