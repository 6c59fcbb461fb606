/** Server-sent events (section 9.2 of the WHATWG HTML standard), with lines ended
    by LF or CRLF: cutting a stream into frames as it arrives in chunks, printing a
    frame and reading its data. */
module SseFrames {
  import opened Wrappers

  // --- the separator ------------------------------------------------------------

  /** The length of the line end at `i`, or 0. */
  function LineEnd(s: string, i: nat): (n: nat)
    requires i <= |s|
    ensures i + n <= |s| && n <= 2
  {
    if i < |s| && s[i] == '\n' then 1
    else if i + 1 < |s| && s[i] == '\r' && s[i + 1] == '\n' then 2
    else 0
  }

  /** The length of the blank line that ends a frame at `i`, or 0. */
  function Separator(s: string, i: nat): (n: nat)
    requires i <= |s|
    ensures i + n <= |s| && n <= 4 && (n > 0 ==> n >= 2)
  {
    var first := LineEnd(s, i);
    if first == 0 then 0
    else
      var second := LineEnd(s, i + first);
      if second == 0 then 0 else first + second
  }

  /** The first place from `i` on where a separator starts, or the end. */
  function NextSeparator(s: string, i: nat): (k: nat)
    requires i <= |s|
    ensures i <= k <= |s| && (k < |s| ==> Separator(s, k) > 0)
    ensures forall j | i <= j < k :: Separator(s, j) == 0
    decreases |s| - i
  {
    if i == |s| || Separator(s, i) > 0 then i else NextSeparator(s, i + 1)
  }

  datatype Split = Split(frames: seq<string>, rest: string)

  function Onto(frames: seq<string>, split: Split): Split {
    Split(frames + split.frames, split.rest)
  }

  lemma OntoOnto(a: seq<string>, b: seq<string>, split: Split)
    ensures Onto(a, Onto(b, split)) == Onto(a + b, split)
  {
    assert a + (b + split.frames) == (a + b) + split.frames;
  }

  lemma OntoNothing(split: Split)
    ensures Onto([], split) == split
  {}

  /** All complete frames of a text, and what is left after the last one. */
  function SplitFrames(s: string): Split
    decreases |s|
  {
    var k := NextSeparator(s, 0);
    if k == |s| then Split([], s) else Onto([s[..k]], SplitFrames(s[k + Separator(s, k)..]))
  }

  /** A blank line, however its two ends are written. */
  predicate IsBlankLine(b: string) {
    b == "\n\n" || b == "\n\r\n" || b == "\r\n\n" || b == "\r\n\r\n"
  }

  predicate StandsAt(s: string, i: nat, b: string) {
    i + |b| <= |s| && s[i..i + |b|] == b
  }

  lemma {:induction false} StandingIsCharByChar(s: string, i: nat, b: string)
    ensures StandsAt(s, i, b) <==> i + |b| <= |s| && forall j | 0 <= j < |b| :: s[i + j] == b[j]
  {
    if i + |b| <= |s| {
      var piece := s[i..i + |b|];
      assert forall j | 0 <= j < |b| :: piece[j] == s[i + j];
    }
  }

  lemma BlankLinesSeparate(s: string, i: nat, b: string)
    requires i <= |s| && IsBlankLine(b) && StandsAt(s, i, b)
    ensures Separator(s, i) == |b|
  {
    StandingIsCharByChar(s, i, b);
    assert s[i] == b[0] && s[i + 1] == b[1];
    if |b| > 2 { assert s[i + 2] == b[2]; }
    if |b| > 3 { assert s[i + 3] == b[3]; }
    hide StandsAt;
  }

  lemma SeparatorsAreBlankLines(s: string, i: nat)
    requires i <= |s| && Separator(s, i) > 0
    ensures IsBlankLine(s[i..i + Separator(s, i)])
  {
    var n := Separator(s, i);
    var b := if n == 2 then "\n\n" else if n == 4 then "\r\n\r\n" else if s[i] == '\n' then "\n\r\n" else "\r\n\n";
    assert |b| == n;
    assert s[i] == b[0] && s[i + 1] == b[1] && (n > 2 ==> s[i + 2] == b[2]) && (n > 3 ==> s[i + 3] == b[3]);
    hide Separator, LineEnd;
    StandingIsCharByChar(s, i, b);
  }

  ghost predicate NoBlankLine(s: string) {
    forall i: nat, b | i <= |s| && IsBlankLine(b) :: !StandsAt(s, i, b)
  }

  function Interleaved(frames: seq<string>, blanks: seq<string>): string
    requires |frames| == |blanks|
  {
    if frames == [] then "" else frames[0] + blanks[0] + Interleaved(frames[1..], blanks[1..])
  }

  lemma NoSeparatorNoBlankLine(s: string)
    requires NextSeparator(s, 0) == |s|
    ensures NoBlankLine(s)
  {
    hide Separator;
    forall i: nat, b | i <= |s| && IsBlankLine(b) ensures !StandsAt(s, i, b) {
      if StandsAt(s, i, b) {
        BlankLinesSeparate(s, i, b);
      }
    }
  }

  /** Splitting loses nothing and stops at nothing but blank lines: the frames, each
      with the blank line that ended it, and the rest are the text, and no blank line
      is left in the rest. */
  lemma {:induction false} SplittingLosesNothing(s: string) returns (blanks: seq<string>)
    ensures |blanks| == |SplitFrames(s).frames| && forall i | 0 <= i < |blanks| :: IsBlankLine(blanks[i])
    ensures s == Interleaved(SplitFrames(s).frames, blanks) + SplitFrames(s).rest
    ensures NoBlankLine(SplitFrames(s).rest)
    decreases |s|
  {
    hide LineEnd, Separator, NextSeparator, SplitFrames, NoBlankLine, Interleaved, IsBlankLine;
    var k := NextSeparator(s, 0);
    SplitsAt(s, k);
    if k == |s| {
      blanks := [];
      NoSeparatorNoBlankLine(s);
      InterleavedNothing(s);
    } else {
      var n := Separator(s, k);
      SeparatorsAreBlankLines(s, k);
      var after := SplittingLosesNothing(s[k + n..]);
      blanks := [s[k..k + n]] + after;
      var split := SplitFrames(s[k + n..]);
      OneMoreFrame(s, k, n, split, after);
    }
  }

  lemma InterleavedNothing(s: string)
    ensures Interleaved([], []) + s == s
  {}

  lemma OneMoreFrame(s: string, k: nat, n: nat, split: Split, after: seq<string>)
    requires k + n <= |s| && |after| == |split.frames|
    requires s[k + n..] == Interleaved(split.frames, after) + split.rest
    ensures s == Interleaved([s[..k]] + split.frames, [s[k..k + n]] + after) + split.rest
  {
    var frames, blanks := [s[..k]] + split.frames, [s[k..k + n]] + after;
    assert frames[1..] == split.frames && blanks[1..] == after;
    assert Interleaved(frames, blanks) == s[..k] + s[k..k + n] + Interleaved(split.frames, after);
    ConcatAssociates(s[..k] + s[k..k + n], Interleaved(split.frames, after), split.rest);
    assert s == s[..k] + s[k..k + n] + s[k + n..];
  }

  // --- chunks -----------------------------------------------------------------------

  /** No separator can start earlier than the first one of a text and end in what
      is added to the text. */
  lemma NoEarlierSeparator(s: string, t: string, j: nat, k: nat)
    requires j < k < |s| && Separator(s, k) > 0 && Separator(s, j) == 0
    ensures Separator(s + t, j) == 0
  {
    var whole := s + t;
    assert whole[j] == s[j] && whole[j + 1] == s[j + 1] && whole[j + 2] == s[j + 2];
    if j + 3 < |s| {
      assert whole[j + 3] == s[j + 3];
    } else {
      assert k == j + 1 && s[j + 1] == '\n' && s[j + 2] == '\n';
    }
  }

  /** More text after a separator does not move it. */
  lemma SeparatorStays(s: string, t: string, k: nat)
    requires k < |s| && Separator(s, k) > 0 && forall j | 0 <= j < k :: Separator(s, j) == 0
    ensures Separator(s + t, k) == Separator(s, k)
    ensures forall j | 0 <= j < k :: Separator(s + t, j) == 0
  {
    forall j | 0 <= j < k ensures Separator(s + t, j) == 0 {
      NoEarlierSeparator(s, t, j, k);
    }
    assert forall j | 0 <= j < |s| :: (s + t)[j] == s[j];
  }

  lemma {:induction false} NextSeparatorIs(s: string, i: nat, k: nat)
    requires i <= k <= |s| && (k < |s| ==> Separator(s, k) > 0) && forall j | i <= j < k :: Separator(s, j) == 0
    ensures NextSeparator(s, i) == k
    decreases |s| - i
  {
    if i < k {
      NextSeparatorIs(s, i + 1, k);
    }
  }

  lemma SplitsAt(s: string, k: nat)
    requires k == NextSeparator(s, 0)
    ensures SplitFrames(s) == if k == |s| then Split([], s) else Onto([s[..k]], SplitFrames(s[k + Separator(s, k)..]))
  {
    hide LineEnd, Separator, NextSeparator, Onto;
  }

  lemma FirstFrameStays(s: string, t: string)
    requires NextSeparator(s, 0) < |s|
    ensures var k := NextSeparator(s, 0);
            NextSeparator(s + t, 0) == k && Separator(s + t, k) == Separator(s, k)
  {
    SeparatorStays(s, t, NextSeparator(s, 0));
    hide LineEnd, Separator;
    NextSeparatorIs(s + t, 0, NextSeparator(s, 0));
  }

  /** Splitting can stop anywhere and go on with what was left. */
  lemma {:induction false} SplittingGoesOn(s: string, t: string)
    ensures SplitFrames(s + t) == Onto(SplitFrames(s).frames, SplitFrames(SplitFrames(s).rest + t))
    decreases |s|
  {
    hide LineEnd, Separator, NextSeparator, SplitFrames;
    var k := NextSeparator(s, 0);
    SplitsAt(s, k);
    if k < |s| {
      FirstFrameStays(s, t);
      var n := k + Separator(s, k);
      SplitsAt(s + t, k);
      assert (s + t)[n..] == s[n..] + t && (s + t)[..k] == s[..k];
      SplittingGoesOn(s[n..], t);
      var after := SplitFrames(s[n..]);
      OntoOnto([s[..k]], after.frames, SplitFrames(after.rest + t));
    } else {
      OntoNothing(SplitFrames(s + t));
    }
  }

  function Joined(chunks: seq<string>): string {
    if chunks == [] then "" else Joined(chunks[..|chunks| - 1]) + chunks[|chunks| - 1]
  }

  /** What pushing the chunks one by one gives: every frame so far, and the rest. */
  function Pushed(chunks: seq<string>): Split {
    if chunks == [] then Split([], "")
    else
      var before := Pushed(chunks[..|chunks| - 1]);
      Onto(before.frames, SplitFrames(before.rest + chunks[|chunks| - 1]))
  }

  /** However a text is cut into chunks, the frames and the remainder are those of
      the whole text. */
  lemma {:induction false} ChunksDoNotMatter(chunks: seq<string>)
    ensures Pushed(chunks) == SplitFrames(Joined(chunks))
  {
    if chunks != [] {
      var front := chunks[..|chunks| - 1];
      ChunksDoNotMatter(front);
      SplittingGoesOn(Joined(front), chunks[|chunks| - 1]);
    } else {
      assert SplitFrames("") == Split([], "");
    }
  }

  class SseFrameBuffer {
    var buffer: string

    constructor ()
      ensures buffer == ""
    {
      buffer := "";
    }

    /** Add a chunk and take out every frame that is complete by now. */
    method Push(chunk: string) returns (frames: seq<string>)
      modifies this
      ensures Split(frames, buffer) == SplitFrames(old(buffer) + chunk)
    {
      buffer := buffer + chunk;
      var consumed;
      frames, consumed := TakeFrames(buffer);
      buffer := buffer[consumed..];
    }
  }

  /** The frames of a text, and how far they reach. */
  method TakeFrames(s: string) returns (frames: seq<string>, consumed: nat)
    ensures consumed <= |s| && SplitFrames(s) == Split(frames, s[consumed..])
  {
    hide SplitSoFar, SplitFrames, Onto, NextSeparator, Separator, LineEnd;
    frames, consumed := [], 0;
    var index := FindSeparator(s, 0);
    SplittingStarts(s, index);
    while index < |s|
      invariant consumed <= index <= |s|
      invariant SplitSoFar(s, frames, consumed, index)
      decreases |s| - consumed
    {
      SplittingSteps(s, frames, consumed, index);
      var length := Separator(s, index);
      frames := frames + [s[consumed..index]];
      consumed := index + length;
      index := FindSeparator(s, consumed);
    }
    SplittingEnds(s, frames, consumed);
  }

  method FindSeparator(s: string, from: nat) returns (index: nat)
    requires from <= |s|
    ensures from <= index <= |s| && index == NextSeparator(s, from)
  {
    index := from;
    while index < |s| && Separator(s, index) == 0
      invariant from <= index <= |s| && NextSeparator(s, index) == NextSeparator(s, from)
    {
      index := index + 1;
    }
  }

  /** `frames` are the frames up to `consumed`; the next one ends at `index`. */
  ghost predicate SplitSoFar(s: string, frames: seq<string>, consumed: nat, index: nat) {
    && consumed <= index <= |s| && index == NextSeparator(s, consumed)
    && Onto(frames, SplitFrames(s[consumed..])) == SplitFrames(s)
  }

  lemma SplittingStarts(s: string, index: nat)
    requires index == NextSeparator(s, 0)
    ensures SplitSoFar(s, [], 0, index)
  {
    assert s[0..] == s;
    OntoNothing(SplitFrames(s));
  }

  lemma SplittingSteps(s: string, frames: seq<string>, consumed: nat, index: nat)
    requires SplitSoFar(s, frames, consumed, index) && index < |s|
    ensures 0 < Separator(s, index) <= |s| - index
    ensures var next := index + Separator(s, index);
            SplitSoFar(s, frames + [s[consumed..index]], next, NextSeparator(s, next))
  {
    SplitFrom(s, consumed, index);
    OntoOnto(frames, [s[consumed..index]], SplitFrames(s[index + Separator(s, index)..]));
  }

  lemma SplittingEnds(s: string, frames: seq<string>, consumed: nat)
    requires SplitSoFar(s, frames, consumed, |s|)
    ensures SplitFrames(s) == Split(frames, s[consumed..])
  {
    SplitFrom(s, consumed, |s|);
  }

  lemma SeparatorInSuffix(s: string, from: nat, j: nat)
    requires from <= j <= |s|
    ensures Separator(s[from..], j - from) == Separator(s, j)
  {
    var rest := s[from..];
    assert forall i | from <= i < |s| :: rest[i - from] == s[i];
  }

  lemma NextInSuffix(s: string, from: nat, k: nat)
    requires from <= k <= |s| && k == NextSeparator(s, from)
    ensures NextSeparator(s[from..], 0) == k - from
    ensures Separator(s[from..], k - from) == Separator(s, k)
  {
    forall j | 0 <= j < k - from ensures Separator(s[from..], j) == 0 {
      SeparatorInSuffix(s, from, from + j);
    }
    SeparatorInSuffix(s, from, k);
    hide LineEnd, Separator;
    NextSeparatorIs(s[from..], 0, k - from);
  }

  /** A suffix splits like the text from that point on. */
  lemma SplitFrom(s: string, from: nat, k: nat)
    requires from <= k <= |s| && k == NextSeparator(s, from)
    ensures SplitFrames(s[from..]) ==
            if k == |s| then Split([], s[from..])
            else Onto([s[from..k]], SplitFrames(s[k + Separator(s, k)..]))
  {
    hide LineEnd, Separator, NextSeparator, SplitFrames, Onto;
    NextInSuffix(s, from, k);
    SplitsAt(s[from..], k - from);
    if k < |s| {
      assert s[from..][..k - from] == s[from..k];
      assert s[from..][k - from + Separator(s, k)..] == s[k + Separator(s, k)..];
    }
  }

  // --- frames -------------------------------------------------------------------------

  predicate OneLine(s: string) {
    '\n' !in s && '\r' !in s
  }

  /** A named frame with its data, which is printed JSON and so one line. */
  function SseFrame(event: string, data: string): string {
    "event: " + event + "\ndata: " + data + "\n\n"
  }

  /** The lines of a frame. */
  function Lines(s: string, from: nat, i: nat): seq<string>
    requires from <= i <= |s|
    decreases |s| - i
  {
    var n := LineEnd(s, i);
    if i == |s| then [s[from..]]
    else if n > 0 then [s[from..i]] + Lines(s, i + n, i + n)
    else Lines(s, from, i + 1)
  }

  predicate IsData(line: string) {
    "data:" <= line
  }

  /** One leading space belongs to the field name. */
  function DataOf(line: string): string
    requires IsData(line)
  {
    var value := line[5..];
    if |value| > 0 && value[0] == ' ' then value[1..] else value
  }

  function DataLines(lines: seq<string>): seq<string> {
    if lines == [] then []
    else (if IsData(lines[0]) then [DataOf(lines[0])] else []) + DataLines(lines[1..])
  }

  function JoinLines(lines: seq<string>): string
    requires lines != []
  {
    if |lines| == 1 then lines[0] else lines[0] + "\n" + JoinLines(lines[1..])
  }

  function SseFrameData(frame: string): Option<string> {
    var data := DataLines(Lines(frame, 0, 0));
    if data == [] then None else Some(JoinLines(data))
  }

  /** A stretch without a line end is passed over. */
  lemma {:induction false} LinesPass(s: string, from: nat, i: nat, k: nat)
    requires from <= i <= k <= |s| && forall j | i <= j < k :: s[j] != '\n' && s[j] != '\r'
    ensures Lines(s, from, i) == Lines(s, from, k)
    decreases k - i
  {
    if i < k {
      LinesPass(s, from, i + 1, k);
    }
  }

  /** A printed frame is read back: it is one frame, with nothing left over, and
      its data is what was printed. */
  lemma PrintedFramesAreRead(event: string, data: string)
    requires OneLine(event) && OneLine(data)
    ensures var frame := "event: " + event + "\ndata: " + data;
            && SplitFrames(SseFrame(event, data)) == Split([frame], "")
            && SseFrameData(frame) == Some(data)
  {
    PrintedFrameIsOne(event, data);
    DataIsRead(event, data);
  }

  lemma DataIsRead(event: string, data: string)
    requires OneLine(event) && OneLine(data)
    ensures SseFrameData("event: " + event + "\ndata: " + data) == Some(data)
  {
    var first, second := "event: " + event, "data: " + data;
    var frame := first + "\n" + second;
    assert frame == "event: " + event + "\ndata: " + data;
    var n := |first|;
    LinesPass(frame, 0, 0, n);
    assert LineEnd(frame, n) == 1;
    LinesPass(frame, n + 1, n + 1, |frame|);
    assert frame[..n] == first && frame[n + 1..] == second;
    assert Lines(frame, 0, 0) == [first, second];
    assert !IsData(first) by {
      assert first[0] == 'e';
    }
    assert IsData(second) && DataOf(second) == data;
    assert [first, second][1..] == [second] && [second][1..] == [];
    assert DataLines([second]) == [data];
  }

  lemma {:induction false} LinesOfSuffix(s: string, k: nat, from: nat, i: nat)
    requires k <= from <= i <= |s|
    ensures Lines(s, from, i) == Lines(s[k..], from - k, i - k)
    decreases |s| - i
  {
    hide LineEnd;
    var rest, n := s[k..], LineEnd(s, i);
    LineEndOfSuffix(s, k, i);
    assert rest[from - k..] == s[from..];
    assert rest[from - k..i - k] == s[from..i];
    if i < |s| {
      if n > 0 {
        LinesOfSuffix(s, k, i + n, i + n);
      } else {
        LinesOfSuffix(s, k, from, i + 1);
      }
    }
  }

  lemma LineEndOfSuffix(s: string, k: nat, i: nat)
    requires k <= i <= |s|
    ensures LineEnd(s[k..], i - k) == LineEnd(s, i)
  {}

  lemma FirstLineComesOff(line: string, rest: string)
    requires OneLine(line)
    ensures Lines(line + "\n" + rest, 0, 0) == [line] + Lines(rest, 0, 0)
  {
    var s, n := line + "\n" + rest, |line|;
    LinesPass(s, 0, 0, n);
    assert LineEnd(s, n) == 1 && s[0..n] == line;
    LinesOfSuffix(s, n + 1, n + 1, n + 1);
    assert s[n + 1..] == rest;
  }

  /** The lines of a data field that spans several. */
  function DataField(lines: seq<string>): (field: seq<string>)
    ensures |field| == |lines|
  {
    if lines == [] then [] else ["data: " + lines[0]] + DataField(lines[1..])
  }

  lemma {:induction false} FieldIsRead(lines: seq<string>)
    requires lines != [] && forall i | 0 <= i < |lines| :: OneLine(lines[i])
    ensures Lines(JoinLines(DataField(lines)), 0, 0) == DataField(lines) && DataLines(DataField(lines)) == lines
  {
    var field := DataField(lines);
    assert IsData(field[0]) && DataOf(field[0]) == lines[0];
    if |lines| == 1 {
      assert field == ["data: " + lines[0]] && field[1..] == [];
      LinesPass(field[0], 0, 0, |field[0]|);
      assert DataLines([]) == [] && lines == [lines[0]];
    } else {
      FieldIsRead(lines[1..]);
      assert field[1..] == DataField(lines[1..]) && |field| == |lines|;
      FirstLineComesOff(field[0], JoinLines(field[1..]));
      assert lines == [lines[0]] + lines[1..];
    }
  }

  /** Data of several lines, each in a field line of its own, is read as those lines. */
  lemma DataLinesAreJoined(lines: seq<string>)
    requires lines != [] && forall i | 0 <= i < |lines| :: OneLine(lines[i])
    ensures DataField(lines) != []
    ensures SseFrameData(JoinLines(DataField(lines))) == Some(JoinLines(lines))
    ensures |lines| > 1 ==> JoinLines(lines) == lines[0] + ['\n'] + JoinLines(lines[1..])
  {
    FieldIsRead(lines);
  }

  lemma PrintedFrameIsOne(event: string, data: string)
    requires OneLine(event) && OneLine(data)
    ensures SplitFrames(SseFrame(event, data)) == Split(["event: " + event + "\ndata: " + data], "")
  {
    var frame := "event: " + event + "\ndata: " + data;
    var s := SseFrame(event, data);
    assert s == frame + "\n\n";
    var n, k := |"event: " + event|, |frame|;
    assert forall j | 0 <= j < k :: s[j] == frame[j];
    forall j | 0 <= j < k ensures Separator(s, j) == 0 {
      if j != n {
        assert s[j] != '\n' && s[j] != '\r';
      } else {
        assert s[n + 1] == 'd';
      }
    }
    assert Separator(s, k) == 2;
    NextSeparatorIs(s, 0, k);
    assert s[k + 2..] == "" && s[..k] == frame;
    assert SplitFrames("") == Split([], "");
  }

  function Printed(events: seq<(string, string)>): string {
    if events == [] then "" else SseFrame(events[0].0, events[0].1) + Printed(events[1..])
  }

  ghost predicate Carry(frames: seq<string>, events: seq<(string, string)>) {
    |frames| == |events| && forall i | 0 <= i < |events| :: SseFrameData(frames[i]) == Some(events[i].1)
  }

  lemma CarryOneMore(frame: string, frames: seq<string>, events: seq<(string, string)>)
    requires events != [] && Carry(frames, events[1..]) && SseFrameData(frame) == Some(events[0].1)
    ensures Carry([frame] + frames, events)
  {
    hide SseFrameData;
  }

  /** A whole printed stream, however it is chunked, is read back frame by frame. */
  lemma {:induction false} StreamsAreRead(events: seq<(string, string)>)
    requires forall i | 0 <= i < |events| :: OneLine(events[i].0) && OneLine(events[i].1)
    ensures SplitFrames(Printed(events)).rest == "" && Carry(SplitFrames(Printed(events)).frames, events)
  {
    if events == [] {
      assert SplitFrames("") == Split([], "");
    } else {
      hide SseFrame, SplitFrames, SseFrameData, Carry;
      StreamsAreRead(events[1..]);
      var rest := SplitFrames(Printed(events[1..]));
      PrintedFramesAreRead(events[0].0, events[0].1);
      SplittingGoesOn(SseFrame(events[0].0, events[0].1), Printed(events[1..]));
      assert "" + Printed(events[1..]) == Printed(events[1..]);
      CarryOneMore("event: " + events[0].0 + "\ndata: " + events[0].1, rest.frames, events);
    }
  }
}
