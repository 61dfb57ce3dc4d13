/** CD tables of contents: the cue parser and the TOC builders of app/cd_toc.py. */
module CueToc {

  /** A line of a cue sheet, as the regular expressions classify it. */
  datatype Line =
    | FileLine
    | TrackLine(audio: bool)
    | IndexLine(number: nat, minutes: nat, seconds: nat, frames: nat)
    | OtherLine

  function MsfToFrames(minutes: nat, seconds: nat, frames: nat): nat {
    (minutes * 60 + seconds) * 75 + frames
  }

  // ----- what a regular cue sheet is -----

  /** The lines cut into track blocks: a TRACK line and all up to the next one. */
  function Blocks(lines: seq<Line>): seq<seq<Line>> {
    if lines == [] then []
    else
      var before, last := Blocks(lines[..|lines| - 1]), lines[|lines| - 1];
      if last.TrackLine? then before + [[last]]
      else if before == [] then []
      else before[..|before| - 1] + [before[|before| - 1] + [last]]
  }

  /** The lines before the first TRACK. */
  function Preamble(lines: seq<Line>): seq<Line> {
    if lines == [] then []
    else if Blocks(lines) == [] then lines
    else Preamble(lines[..|lines| - 1])
  }

  /** The INDEX 01 offsets among some lines. */
  function Starts(lines: seq<Line>): seq<nat> {
    if lines == [] then []
    else
      var before, last := Starts(lines[..|lines| - 1]), lines[|lines| - 1];
      if last.IndexLine? && last.number == 1
      then before + [MsfToFrames(last.minutes, last.seconds, last.frames)] else before
  }

  function Files(lines: seq<Line>): nat {
    if lines == [] then 0
    else Files(lines[..|lines| - 1]) + if lines[|lines| - 1].FileLine? then 1 else 0
  }

  predicate HasIndex(lines: seq<Line>) { exists l | l in lines :: l.IndexLine? }

  /** One FILE at most, at least one TRACK, no INDEX before it, and every track is
      AUDIO with exactly one INDEX 01. */
  predicate Regular(lines: seq<Line>) {
    && Files(lines) <= 1 && Blocks(lines) != [] && !HasIndex(Preamble(lines))
    && forall b | b in Blocks(lines) :: b != [] && b[0] == TrackLine(true) && |Starts(b)| == 1
  }

  /** One offset for each track, in order: the one INDEX 01 of its block. */
  predicate OffsetsOf(offsets: seq<nat>, blocks: seq<seq<Line>>) {
    |offsets| == |blocks| && forall i | 0 <= i < |blocks| :: Starts(blocks[i]) == [offsets[i]]
  }

  /** The offset of each track of a regular sheet. */
  function TrackOffsets(lines: seq<Line>): (r: seq<nat>)
    requires Regular(lines)
    ensures OffsetsOf(r, Blocks(lines)) && r != []
    ensures forall s: seq<nat> | OffsetsOf(s, Blocks(lines)) :: s == r
  {
    var blocks := Blocks(lines);
    assert forall i | 0 <= i < |blocks| :: blocks[i] in blocks;
    var r: seq<nat> := seq(|blocks|, i requires 0 <= i < |blocks| => Starts(blocks[i])[0]);
    assert forall s: seq<nat> | OffsetsOf(s, blocks) :: s == r by {
      forall s: seq<nat> | OffsetsOf(s, blocks) ensures s == r {
        assert forall i | 0 <= i < |blocks| :: s[i] == Starts(blocks[i])[0];
      }
    }
    r
  }

  predicate IsBlock(b: seq<Line>) {
    b != [] && b[0].TrackLine? && forall k | 0 < k < |b| :: !b[k].TrackLine?
  }

  function Flatten(blocks: seq<seq<Line>>): seq<Line> {
    if blocks == [] then [] else Flatten(blocks[..|blocks| - 1]) + blocks[|blocks| - 1]
  }

  lemma FlattenLast(blocks: seq<seq<Line>>, b: seq<Line>)
    ensures Flatten(blocks + [b]) == Flatten(blocks) + b
  {
    assert (blocks + [b])[..|blocks|] == blocks;
  }

  /** The cut loses nothing: preamble and blocks are the sheet, and each block has
      exactly one TRACK line, its first. */
  lemma BlocksPartition(lines: seq<Line>)
    ensures Preamble(lines) + Flatten(Blocks(lines)) == lines
    ensures forall l | l in Preamble(lines) :: !l.TrackLine?
    ensures forall b | b in Blocks(lines) :: IsBlock(b)
  {
    CutJoins(lines);
    PreambleIsPlain(lines);
    BlocksAreBlocks(lines);
  }

  lemma {:induction false} CutJoins(lines: seq<Line>)
    ensures Preamble(lines) + Flatten(Blocks(lines)) == lines
  {
    if lines != [] {
      var front, last := lines[..|lines| - 1], lines[|lines| - 1];
      CutJoins(front);
      assert lines == front + [last];
      OneMore(front, last);
      var before := Blocks(front);
      if last.TrackLine? {
        FlattenLast(before, [last]);
        Associate(Preamble(front), Flatten(before), [last]);
      } else if before != [] {
        var rest, body := before[..|before| - 1], before[|before| - 1];
        assert before == rest + [body];
        FlattenLast(rest, body);
        FlattenLast(rest, body + [last]);
        Associate(Preamble(front), Flatten(rest) + body, [last]);
        Associate(Flatten(rest), body, [last]);
      }
      hide Blocks, Preamble, Flatten;
    }
  }

  lemma Associate(a: seq<Line>, b: seq<Line>, c: seq<Line>)
    ensures (a + b) + c == a + (b + c)
  {
  }

  lemma {:induction false} PreambleIsPlain(lines: seq<Line>)
    ensures forall l | l in Preamble(lines) :: !l.TrackLine?
  {
    if lines != [] {
      var front, last := lines[..|lines| - 1], lines[|lines| - 1];
      PreambleIsPlain(front);
      assert lines == front + [last];
      OneMore(front, last);
      hide Blocks, Preamble;
    }
  }

  lemma {:induction false} BlocksAreBlocks(lines: seq<Line>)
    ensures forall b | b in Blocks(lines) :: IsBlock(b)
  {
    if lines != [] {
      BlocksAreBlocks(lines[..|lines| - 1]);
      var before := Blocks(lines[..|lines| - 1]);
      if before != [] { assert before[|before| - 1] in before; }
    }
  }

  // ----- the same, line by line -----

  predicate IsIndex01(l: Line) { l.IndexLine? && l.number == 1 }

  /** The block has one INDEX 01 line, and this is its offset: 75 frames to a second, 60
      seconds to a minute. */
  predicate StartsAt(b: seq<Line>, x: nat) {
    exists k | 0 <= k < |b| ::
      && IsIndex01(b[k]) && x == b[k].frames + 75 * b[k].seconds + 75 * 60 * b[k].minutes
      && forall i | 0 <= i < |b| && i != k :: !IsIndex01(b[i])
  }

  predicate AtMostOneFile(lines: seq<Line>) {
    forall i, j | 0 <= i < j < |lines| :: !(lines[i].FileLine? && lines[j].FileLine?)
  }

  lemma {:induction false} NoStarts(b: seq<Line>)
    ensures Starts(b) == [] <==> forall i | 0 <= i < |b| :: !IsIndex01(b[i])
  {
    if b != [] {
      var front := b[..|b| - 1];
      NoStarts(front);
      assert forall i | 0 <= i < |front| :: front[i] == b[i];
    }
  }

  lemma {:induction false} StartIs(b: seq<Line>, x: nat)
    ensures Starts(b) == [x] <==> StartsAt(b, x)
  {
    if b != [] {
      var n := |b| - 1;
      var front, last := b[..n], b[n];
      assert forall i | 0 <= i < n :: front[i] == b[i];
      if IsIndex01(last) {
        NoStarts(front);
        LastStart(b, x);
        var v := MsfToFrames(last.minutes, last.seconds, last.frames);
        assert Starts(b) == Starts(front) + [v] && |Starts(b)| == |Starts(front)| + 1;
        assert Starts(front) == [] ==> Starts(b) == [v];
        assert Starts(b)[|Starts(front)|] == v;
      } else {
        StartIs(front, x);
        EarlierStart(b, x);
      }
    }
  }

  lemma LastStart(b: seq<Line>, x: nat)
    requires b != [] && IsIndex01(b[|b| - 1])
    ensures StartsAt(b, x) <==>
            && (forall i | 0 <= i < |b| - 1 :: !IsIndex01(b[i]))
            && x == MsfToFrames(b[|b| - 1].minutes, b[|b| - 1].seconds, b[|b| - 1].frames)
  {
    var n := |b| - 1;
    if StartsAt(b, x) {
      var k :| 0 <= k < |b| && IsIndex01(b[k]) && x == b[k].frames + 75 * b[k].seconds + 75 * 60 * b[k].minutes
               && forall i | 0 <= i < |b| && i != k :: !IsIndex01(b[i]);
      assert k == n;
    }
  }

  lemma EarlierStart(b: seq<Line>, x: nat)
    requires b != [] && !IsIndex01(b[|b| - 1])
    ensures StartsAt(b, x) <==> StartsAt(b[..|b| - 1], x)
  {
    var front := b[..|b| - 1];
    if StartsAt(b, x) {
      var k :| 0 <= k < |b| && IsIndex01(b[k]) && x == b[k].frames + 75 * b[k].seconds + 75 * 60 * b[k].minutes
               && forall i | 0 <= i < |b| && i != k :: !IsIndex01(b[i]);
      assert IsIndex01(front[k]);
    }
    if StartsAt(front, x) {
      var k :| 0 <= k < |front| && IsIndex01(front[k])
               && x == front[k].frames + 75 * front[k].seconds + 75 * 60 * front[k].minutes
               && forall i | 0 <= i < |front| && i != k :: !IsIndex01(front[i]);
      forall i | 0 <= i < |b| && i != k ensures !IsIndex01(b[i]) {
        if i < |front| { assert b[i] == front[i]; }
      }
      assert IsIndex01(b[k]);
    }
  }

  lemma {:induction false} FilesCounted(lines: seq<Line>)
    ensures Files(lines) == 0 <==> forall i | 0 <= i < |lines| :: !lines[i].FileLine?
    ensures Files(lines) <= 1 <==> AtMostOneFile(lines)
  {
    if lines != [] {
      var n := |lines| - 1;
      var front := lines[..n];
      FilesCounted(front);
      assert forall i | 0 <= i < n :: front[i] == lines[i];
      if AtMostOneFile(lines) {
        assert AtMostOneFile(front);
      }
    }
  }

  /** What makes a sheet regular: one FILE line at most, at least one track, no INDEX line
      before the first, and every track AUDIO with one INDEX 01. */
  lemma RegularMeans(lines: seq<Line>)
    ensures Regular(lines) <==>
            && AtMostOneFile(lines) && Blocks(lines) != [] && (forall l | l in Preamble(lines) :: !l.IndexLine?)
            && forall b | b in Blocks(lines) :: b != [] && b[0] == TrackLine(true) && exists x :: StartsAt(b, x)
  {
    FilesCounted(lines);
    forall b | b in Blocks(lines) ensures |Starts(b)| == 1 <==> exists x :: StartsAt(b, x) {
      if |Starts(b)| == 1 {
        StartIs(b, Starts(b)[0]);
      }
      if x :| StartsAt(b, x) { StartIs(b, x); }
    }
    hide Blocks, Preamble, Files, Starts, StartsAt, AtMostOneFile;
  }

  // ----- what the one pass knows -----

  /** No irregularity so far: only the last block may still lack its INDEX 01. */
  predicate Healthy(lines: seq<Line>) {
    !HasIndex(Preamble(lines)) && Sound(Blocks(lines))
  }

  predicate Startable(b: seq<Line>) { b != [] && b[0] == TrackLine(true) && |Starts(b)| <= 1 }
  predicate Started(b: seq<Line>) { |Starts(b)| == 1 }

  predicate Sound(blocks: seq<seq<Line>>) {
    && (forall i | 0 <= i < |blocks| :: Startable(blocks[i]))
    && (forall i | 0 <= i < |blocks| - 1 :: Started(blocks[i]))
  }

  /** What one more line does. */
  lemma OneMore(lines: seq<Line>, l: Line)
    ensures var t := lines + [l];
            var blocks := Blocks(lines);
            && Starts(t) == Starts(lines) + (if l.IndexLine? && l.number == 1 then [MsfToFrames(l.minutes, l.seconds, l.frames)] else [])
            && Files(t) == Files(lines) + (if l.FileLine? then 1 else 0)
            && Blocks(t) == (if l.TrackLine? then blocks + [[l]]
                             else if blocks == [] then []
                             else blocks[..|blocks| - 1] + [blocks[|blocks| - 1] + [l]])
            && (Blocks(t) == [] ==> Preamble(t) == t && Preamble(lines) == lines)
            && (Blocks(t) != [] ==> Preamble(t) == Preamble(lines))
            && (Blocks(lines) == [] ==> Preamble(lines) == lines)
  {
    assert (lines + [l])[..|lines|] == lines;
  }

  /** The conditions under which one more line keeps the sheet healthy. */
  predicate Allowed(lines: seq<Line>, l: Line) {
    var blocks := Blocks(lines);
    var open := if blocks == [] then 0 else |Starts(blocks[|blocks| - 1])|;
    match l
    case TrackLine(audio) => audio && (blocks == [] || open == 1)
    case IndexLine(n, _, _, _) => blocks != [] && (n == 1 ==> open == 0)
    case _ => true
  }

  lemma StartOf(l: Line)
    ensures l.TrackLine? ==> Starts([l]) == []
  {
    if l.TrackLine? { assert [l][..0] == []; }
  }

  lemma HealthyOneMore(lines: seq<Line>, l: Line)
    ensures Healthy(lines + [l]) <==> Healthy(lines) && Allowed(lines, l)
  {
    var t := lines + [l];
    OneMore(lines, l);
    StartOf(l);
    var before, after := Blocks(lines), Blocks(t);
    if l.TrackLine? {
      HealthyTrack(lines, l);
    } else if before == [] {
      assert after == [];
    } else {
      HealthyInside(lines, l);
    }
  }

  lemma SoundAppend(blocks: seq<seq<Line>>, b: seq<Line>)
    ensures Sound(blocks + [b]) <==>
            Sound(blocks) && Startable(b) && (blocks != [] ==> Started(blocks[|blocks| - 1]))
  {
    hide Startable, Started;
    var after := blocks + [b];
    assert forall i | 0 <= i < |blocks| :: after[i] == blocks[i];
    if Sound(after) {
      forall i | 0 <= i < |blocks| ensures Startable(blocks[i]) && Started(blocks[i]) {
        assert Startable(after[i]) && Started(after[i]);
      }
      assert Startable(after[|blocks|]);
    }
  }

  lemma HealthyTrack(lines: seq<Line>, l: Line)
    requires l.TrackLine?
    ensures Healthy(lines + [l]) <==> Healthy(lines) && Allowed(lines, l)
  {
    OneMore(lines, l);
    StartOf(l);
    SoundAppend(Blocks(lines), [l]);
    hide Starts, Blocks, Preamble, HasIndex, Sound;
  }

  lemma HealthyInside(lines: seq<Line>, l: Line)
    requires !l.TrackLine? && Blocks(lines) != []
    ensures Healthy(lines + [l]) <==> Healthy(lines) && Allowed(lines, l)
  {
    OneMore(lines, l);
    var before := Blocks(lines);
    var n := |before|;
    var front, last := before[..n - 1], before[n - 1];
    OneMore(last, l);
    BlocksPartition(lines);
    assert last in before;
    assert before == front + [last];
    SoundAppend(front, last);
    SoundAppend(front, last + [l]);
    hide Starts, Blocks, Preamble, HasIndex, Sound;
  }

  lemma {:induction false} HealthyPrefix(lines: seq<Line>, n: nat)
    requires Healthy(lines) && n <= |lines|
    ensures Healthy(lines[..n])
    decreases |lines| - n
  {
    if n == |lines| {
      assert lines[..n] == lines;
    } else {
      HealthyPrefix(lines, n + 1);
      assert lines[..n + 1] == lines[..n] + [lines[n]];
      HealthyOneMore(lines[..n], lines[n]);
    }
  }

  /** Regular is healthy with the last block closed as well. */
  lemma RegularIff(lines: seq<Line>)
    ensures Regular(lines) <==>
            && Files(lines) <= 1 && Healthy(lines)
            && Blocks(lines) != [] && |Starts(Blocks(lines)[|Blocks(lines)| - 1])| == 1
  {
    var blocks := Blocks(lines);
    hide Starts, Blocks, Preamble, HasIndex, Files;
    assert forall i | 0 <= i < |blocks| :: blocks[i] in blocks;
  }

  /** The offsets collected so far: one for each block that has its INDEX 01. */
  predicate Collected(offsets: seq<nat>, lines: seq<Line>) {
    var blocks := Blocks(lines);
    if blocks == [] || |Starts(blocks[|blocks| - 1])| == 1 then OffsetsOf(offsets, blocks)
    else OffsetsOf(offsets, blocks[..|blocks| - 1])
  }

  predicate Open(lines: seq<Line>) {
    Blocks(lines) != [] && Starts(Blocks(lines)[|Blocks(lines)| - 1]) == []
  }

  lemma OffsetsAppend(offsets: seq<nat>, blocks: seq<seq<Line>>, x: nat, b: seq<Line>)
    requires OffsetsOf(offsets, blocks) && Starts(b) == [x]
    ensures OffsetsOf(offsets + [x], blocks + [b])
  {
    hide Starts;
  }

  lemma OffsetsFront(offsets: seq<nat>, blocks: seq<seq<Line>>)
    requires OffsetsOf(offsets, blocks) && blocks != []
    ensures OffsetsOf(offsets[..|offsets| - 1], blocks[..|blocks| - 1])
    ensures Starts(blocks[|blocks| - 1]) == [offsets[|offsets| - 1]] && offsets == offsets[..|offsets| - 1] + [offsets[|offsets| - 1]]
  {
    hide Starts;
  }

  predicate IsStart(l: Line) { l.IndexLine? && l.number == 1 }

  /** What an allowed line does to the state of the pass. */
  lemma CollectOneMore(lines: seq<Line>, l: Line, offsets: seq<nat>)
    requires Healthy(lines) && Allowed(lines, l) && Collected(offsets, lines)
    ensures var t := lines + [l];
            && Collected(if IsStart(l) then offsets + [MsfToFrames(l.minutes, l.seconds, l.frames)] else offsets, t)
            && (Blocks(t) != [] <==> Blocks(lines) != [] || l.TrackLine?)
            && (Open(t) <==> if l.TrackLine? then true else if IsStart(l) then false else Open(lines))
  {
    OneMore(lines, l);
    StartOf(l);
    var before := Blocks(lines);
    if l.TrackLine? {
      assert (before + [[l]])[..|before|] == before;
      hide Starts, Blocks, OffsetsOf, Healthy;
    } else if before != [] {
      CollectInside(lines, l, offsets);
    }
  }

  lemma CollectInside(lines: seq<Line>, l: Line, offsets: seq<nat>)
    requires Healthy(lines) && Allowed(lines, l) && Collected(offsets, lines)
    requires !l.TrackLine? && Blocks(lines) != []
    ensures Collected(if IsStart(l) then offsets + [MsfToFrames(l.minutes, l.seconds, l.frames)] else offsets, lines + [l])
    ensures Open(lines + [l]) <==> if IsStart(l) then false else Open(lines)
    ensures Blocks(lines + [l]) != []
  {
    OneMore(lines, l);
    OpenCounts(lines);
    var before := Blocks(lines);
    var n := |before|;
    var front, last := before[..n - 1], before[n - 1];
    OneMore(last, l);
    var after := front + [last + [l]];
    assert after[..n - 1] == front && after[n - 1] == last + [l];
    if !Open(lines) {
      OffsetsFront(offsets, before);
      OffsetsAppend(offsets[..|offsets| - 1], front, offsets[|offsets| - 1], last + [l]);
    } else if IsStart(l) {
      OffsetsAppend(offsets, front, MsfToFrames(l.minutes, l.seconds, l.frames), last + [l]);
    }
    hide Starts, Blocks, OffsetsOf, Healthy;
  }

  // ----- the parser -----

  method CountFiles(lines: seq<Line>) returns (n: nat)
    ensures n == Files(lines)
  {
    n := 0;
    for i := 0 to |lines|
      invariant n == Files(lines[..i])
    {
      assert lines[..i + 1] == lines[..i] + [lines[i]];
      OneMore(lines[..i], lines[i]);
      if lines[i].FileLine? { n := n + 1; }
    }
    assert lines[..|lines|] == lines;
  }

  /** `parse_cue_offsets`: for every sheet, offsets come back if and only if the sheet
      is regular, and then they are those of its tracks, in order. */
  method ParseCueOffsets(lines: seq<Line>) returns (offsets: seq<nat>)
    ensures offsets != [] <==> Regular(lines)
    ensures Regular(lines) ==> OffsetsOf(offsets, Blocks(lines))
    ensures Regular(lines) ==>
              |offsets| == |Blocks(lines)| && forall j | 0 <= j < |offsets| :: StartsAt(Blocks(lines)[j], offsets[j])
  {
    offsets := OnePass(lines);
    if Regular(lines) {
      forall j | 0 <= j < |offsets| ensures StartsAt(Blocks(lines)[j], offsets[j]) {
        StartIs(Blocks(lines)[j], offsets[j]);
      }
    }
  }

  method OnePass(lines: seq<Line>) returns (offsets: seq<nat>)
    ensures offsets != [] <==> Regular(lines)
    ensures Regular(lines) ==> OffsetsOf(offsets, Blocks(lines))
  {
    hide Blocks, Starts, Healthy, Regular, Collected, OffsetsOf;
    RegularIff(lines);
    var files := CountFiles(lines);
    if files > 1 { return []; }
    offsets := [];
    var inTrack, haveIndex := false, false;
    NothingRead();
    var i := 0;
    while i < |lines|
      invariant 0 <= i <= |lines|
      invariant Healthy(lines[..i]) && Collected(offsets, lines[..i])
      invariant inTrack <==> Blocks(lines[..i]) != []
      invariant inTrack && !haveIndex <==> Open(lines[..i])
    {
      var l := lines[i];
      ghost var seen := lines[..i];
      assert lines[..i + 1] == seen + [l];
      HealthyOneMore(seen, l);
      OpenCounts(seen);
      if !Allowed(seen, l) {
        Spoilt(lines, i + 1);
      } else {
        CollectOneMore(seen, l, offsets);
      }
      match l {
        case TrackLine(audio) =>
          if inTrack && !haveIndex { return []; }
          if !audio { return []; }
          inTrack, haveIndex := true, false;
        case IndexLine(number, mm, ss, ff) =>
          if !inTrack { return []; }
          if number == 1 {
            if haveIndex { return []; }
            offsets := offsets + [MsfToFrames(mm, ss, ff)];
            haveIndex := true;
          }
        case _ =>
      }
      i := i + 1;
    }
    assert lines[..i] == lines;
    OpenCounts(lines);
    if inTrack && !haveIndex { return []; }
    Finished(lines, offsets);
  }

  lemma NothingRead()
    ensures Healthy([]) && Collected([], []) && Blocks([]) == [] && !Open([])
  {
  }

  lemma OpenCounts(lines: seq<Line>)
    requires Healthy(lines)
    ensures Blocks(lines) != [] ==>
              |Starts(Blocks(lines)[|Blocks(lines)| - 1])| == if Open(lines) then 0 else 1
  {
  }

  lemma Spoilt(lines: seq<Line>, n: nat)
    requires n <= |lines| && !Healthy(lines[..n])
    ensures !Regular(lines)
  {
    RegularIff(lines);
    if Healthy(lines) { HealthyPrefix(lines, n); }
  }

  lemma Finished(lines: seq<Line>, offsets: seq<nat>)
    requires Healthy(lines) && Collected(offsets, lines) && !Open(lines) && Files(lines) <= 1
    ensures offsets != [] <==> Regular(lines)
    ensures Regular(lines) ==> OffsetsOf(offsets, Blocks(lines))
  {
    RegularIff(lines);
    OpenCounts(lines);
    hide Blocks, Starts, Healthy, Regular;
  }
}
