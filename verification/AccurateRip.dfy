/** The AccurateRip `.bin` parser of app/cd_lookup.py. */
module AccurateRip {

  type Byte = b: int | 0 <= b < 256
  type Word = w: int | 0 <= w < 0x1_0000_0000

  datatype Track = Track(confidence: Byte, crc: Word, crc450: Word)

  /** One submission of a disc. */
  datatype Chunk = Chunk(id1: Word, id2: Word, cddb: Word, tracks: seq<Track>)

  datatype Disc = Disc(id1: int, id2: int, cddb: int, trackCount: int)

  datatype Lookup = Lookup(found: bool, pressings: nat, maxConfidence: Byte, trackCount: int, perTrack: seq<Byte>)

  const NOT_FOUND := Lookup(false, 0, 0, 0, [])

  /** A header of 13 bytes, and 9 bytes for each track. */
  function ChunkSize(tracks: int): int { 13 + 9 * tracks }

  // ----- the format -----

  function Word4(b: seq<Byte>): Word
    requires |b| == 4
  {
    var b0: int, b1: int, b2: int, b3: int := b[0], b[1], b[2], b[3];
    b0 + 0x100 * b1 + 0x1_0000 * b2 + 0x100_0000 * b3
  }

  function Bytes4(w: Word): (b: seq<Byte>)
    ensures |b| == 4
  {
    [w % 0x100, w / 0x100 % 0x100, w / 0x1_0000 % 0x100, w / 0x100_0000]
  }

  lemma WordRoundTrip(w: Word)
    ensures Word4(Bytes4(w)) == w
  {
    assert w / 0x1_0000 == w / 0x100 / 0x100 && w / 0x100_0000 == w / 0x1_0000 / 0x100;
  }

  function EncodeTrack(t: Track): (b: seq<Byte>)
    ensures |b| == 9
  {
    [t.confidence] + Bytes4(t.crc) + Bytes4(t.crc450)
  }

  function DecodeTrack(b: seq<Byte>): Track
    requires |b| == 9
  {
    Track(b[0], Word4(b[1..5]), Word4(b[5..9]))
  }

  function EncodeTracks(ts: seq<Track>): (b: seq<Byte>)
    ensures |b| == 9 * |ts|
  {
    if ts == [] then [] else EncodeTrack(ts[0]) + EncodeTracks(ts[1..])
  }

  function DecodeTracks(b: seq<Byte>, n: nat): (ts: seq<Track>)
    requires |b| == 9 * n
    ensures |ts| == n
  {
    if n == 0 then [] else [DecodeTrack(b[..9])] + DecodeTracks(b[9..], n - 1)
  }

  predicate WellFormed(c: Chunk) { 1 <= |c.tracks| <= 255 }

  function Encode(c: Chunk): (b: seq<Byte>)
    requires WellFormed(c)
    ensures |b| == 13 + 9 * |c.tracks| && b[0] == |c.tracks|
  {
    [|c.tracks|] + Bytes4(c.id1) + Bytes4(c.id2) + Bytes4(c.cddb) + EncodeTracks(c.tracks)
  }

  function EncodeAll(cs: seq<Chunk>): seq<Byte>
    requires forall c | c in cs :: WellFormed(c)
  {
    if cs == [] then [] else Encode(cs[0]) + EncodeAll(cs[1..])
  }

  /** Does a whole chunk come next? */
  predicate Starts(b: seq<Byte>) {
    |b| >= 13 && b[0] != 0 && ChunkSize(b[0]) <= |b|
  }

  function Size(b: seq<Byte>): nat
    requires Starts(b)
  {
    ChunkSize(b[0])
  }

  function First(b: seq<Byte>): (c: Chunk)
    requires Starts(b)
    ensures WellFormed(c)
  {
    Chunk(Word4(b[1..5]), Word4(b[5..9]), Word4(b[9..13]), DecodeTracks(b[13..Size(b)], b[0]))
  }

  /** The chunks of a body: whole ones only, up to the first that is not. */
  function Chunks(b: seq<Byte>): seq<Chunk>
    decreases |b|
  {
    if Starts(b) then [First(b)] + Chunks(b[Size(b)..]) else []
  }

  lemma TrackRoundTrip(t: Track)
    ensures DecodeTrack(EncodeTrack(t)) == t
  {
    var b := EncodeTrack(t);
    assert b[1..5] == Bytes4(t.crc) && b[5..9] == Bytes4(t.crc450);
    WordRoundTrip(t.crc);
    WordRoundTrip(t.crc450);
  }

  lemma {:induction false} TracksRoundTrip(ts: seq<Track>)
    ensures DecodeTracks(EncodeTracks(ts), |ts|) == ts
  {
    if ts != [] {
      var b := EncodeTracks(ts);
      assert b[..9] == EncodeTrack(ts[0]) && b[9..] == EncodeTracks(ts[1..]);
      TrackRoundTrip(ts[0]);
      TracksRoundTrip(ts[1..]);
    }
  }

  lemma ChunkRoundTrip(c: Chunk, rest: seq<Byte>)
    requires WellFormed(c)
    ensures Starts(Encode(c) + rest) && First(Encode(c) + rest) == c && Size(Encode(c) + rest) == |Encode(c)|
  {
    var b := Encode(c) + rest;
    assert b[0] == |c.tracks|;
    assert b[1..5] == Bytes4(c.id1) && b[5..9] == Bytes4(c.id2) && b[9..13] == Bytes4(c.cddb);
    assert b[13..Size(b)] == EncodeTracks(c.tracks);
    WordRoundTrip(c.id1);
    WordRoundTrip(c.id2);
    WordRoundTrip(c.cddb);
    TracksRoundTrip(c.tracks);
  }

  /** Any list of chunks, written out and followed by any bytes that do not start a
      whole chunk, is read back exactly. */
  lemma {:induction false} BodyRoundTrip(cs: seq<Chunk>, tail: seq<Byte>)
    requires (forall c | c in cs :: WellFormed(c)) && !Starts(tail)
    ensures Chunks(EncodeAll(cs) + tail) == cs
  {
    if cs == [] {
      assert EncodeAll(cs) + tail == tail;
    } else {
      var rest := EncodeAll(cs[1..]) + tail;
      assert EncodeAll(cs) + tail == Encode(cs[0]) + rest;
      ChunkRoundTrip(cs[0], rest);
      assert (Encode(cs[0]) + rest)[|Encode(cs[0])|..] == rest;
      BodyRoundTrip(cs[1..], tail);
    }
  }

  /** Where everything lies in a chunk: the track count, three little-endian words, and
      nine bytes for each track, of which the first is the confidence. */
  lemma ChunkLayout(b: seq<Byte>, i: nat)
    requires |b| >= 13 && b[0] >= 1 && |b| >= 13 + 9 * (b[0] as int) && i < b[0]
    ensures Starts(b)
    ensures var c := First(b);
            && |c.tracks| == b[0] && c.tracks[i].confidence == b[13 + 9 * i]
            && c.id1 == (b[1] as int) + 256 * (b[2] as int) + 65536 * (b[3] as int) + 16777216 * (b[4] as int)
            && c.id2 == (b[5] as int) + 256 * (b[6] as int) + 65536 * (b[7] as int) + 16777216 * (b[8] as int)
            && c.cddb == (b[9] as int) + 256 * (b[10] as int) + 65536 * (b[11] as int) + 16777216 * (b[12] as int)
  {
    var c := First(b);
    TrackAt(b[13..Size(b)], b[0], i);
    assert b[1..5][0] == b[1] && b[1..5][1] == b[2] && b[1..5][2] == b[3] && b[1..5][3] == b[4];
    assert b[5..9][0] == b[5] && b[5..9][1] == b[6] && b[5..9][2] == b[7] && b[5..9][3] == b[8];
    assert b[9..13][0] == b[9] && b[9..13][1] == b[10] && b[9..13][2] == b[11] && b[9..13][3] == b[12];
  }

  // ----- what a lookup is to find -----

  predicate Matches(c: Chunk, d: Disc) {
    c.id1 == d.id1 && c.id2 == d.id2 && c.cddb == d.cddb && |c.tracks| == d.trackCount
  }

  /** The chunks for this disc, in order. */
  function Matching(cs: seq<Chunk>, d: Disc): seq<Chunk> {
    if cs == [] then []
    else Matching(cs[..|cs| - 1], d) + if Matches(cs[|cs| - 1], d) then [cs[|cs| - 1]] else []
  }

  lemma {:induction false} MatchingIs(cs: seq<Chunk>, d: Disc)
    ensures forall c :: c in Matching(cs, d) <==> c in cs && Matches(c, d)
  {
    if cs != [] {
      MatchingIs(cs[..|cs| - 1], d);
      assert cs == cs[..|cs| - 1] + [cs[|cs| - 1]];
    }
  }

  /** `m` is the greatest confidence of a track over the given chunks. */
  predicate IsBest(cs: seq<Chunk>, track: nat, m: Byte) {
    && (forall c | c in cs :: track < |c.tracks| && c.tracks[track].confidence <= m)
    && exists c | c in cs :: track < |c.tracks| && c.tracks[track].confidence == m
  }

  predicate IsMax(s: seq<Byte>, m: Byte) { m in s && forall x | x in s :: x <= m }

  predicate Describes(r: Lookup, cs: seq<Chunk>, d: Disc) {
    var hits := Matching(cs, d);
    if hits == [] then r == NOT_FOUND
    else
      && r.found && r.pressings == |hits| && r.trackCount == d.trackCount == |r.perTrack|
      && IsMax(r.perTrack, r.maxConfidence)
      && forall i | 0 <= i < |r.perTrack| :: IsBest(hits, i, r.perTrack[i])
  }

  // ----- the parser -----

  lemma {:induction false} TrackAt(b: seq<Byte>, n: nat, i: nat)
    requires |b| == 9 * n && i < n
    ensures DecodeTracks(b, n)[i].confidence == b[i * 9]
  {
    if i > 0 {
      TrackAt(b[9..], n - 1, i - 1);
    }
  }

  // The same, at a position in the body.

  predicate StartsAt(data: seq<Byte>, offset: nat) {
    offset + 13 <= |data| && data[offset] != 0 && offset + ChunkSize(data[offset]) <= |data|
  }

  ghost function From(data: seq<Byte>, offset: nat): seq<Chunk>
    requires offset <= |data|
  {
    Chunks(data[offset..])
  }

  ghost function ChunkAt(data: seq<Byte>, offset: nat): Chunk
    requires StartsAt(data, offset)
  {
    First(data[offset..])
  }

  lemma Here(data: seq<Byte>, offset: nat)
    requires offset <= |data|
    ensures if !StartsAt(data, offset) then From(data, offset) == []
            else From(data, offset) == [ChunkAt(data, offset)] + From(data, offset + ChunkSize(data[offset]))
  {
    if Starts(data[offset..]) {
      assert data[offset..][Size(data[offset..])..] == data[offset + Size(data[offset..])..];
    }
  }

  lemma HeaderAt(data: seq<Byte>, offset: nat)
    requires StartsAt(data, offset)
    ensures var c := ChunkAt(data, offset);
            && c.id1 == Word4(data[offset + 1..offset + 5]) && c.id2 == Word4(data[offset + 5..offset + 9])
            && c.cddb == Word4(data[offset + 9..offset + 13]) && |c.tracks| == data[offset]
  {
    assert data[offset..][1..5] == data[offset + 1..offset + 5];
    assert data[offset..][5..9] == data[offset + 5..offset + 9];
    assert data[offset..][9..13] == data[offset + 9..offset + 13];
  }

  lemma ConfidenceAt(data: seq<Byte>, offset: nat, i: nat)
    requires StartsAt(data, offset) && i < data[offset]
    ensures |ChunkAt(data, offset).tracks| == data[offset]
    ensures ChunkAt(data, offset).tracks[i].confidence == data[offset + 13 + i * 9]
  {
    TrackAt(data[offset..][13..Size(data[offset..])], data[offset], i);
  }

  /** The best so far, as the dictionary holds it. */
  predicate Best(hits: seq<Chunk>, best: map<nat, Byte>, n: int) {
    hits != [] ==> forall i: nat | i < n :: i in best && IsBest(hits, i, best[i])
  }

  /** One matching chunk: raise the confidence of every track. */
  method Merge(data: seq<Byte>, offset: nat, best0: map<nat, Byte>, ghost hits: seq<Chunk>) returns (best: map<nat, Byte>)
    requires StartsAt(data, offset) && forall c | c in hits :: |c.tracks| == data[offset]
    requires Best(hits, best0, data[offset]) && (hits == [] ==> best0 == map[])
    ensures Best(hits + [ChunkAt(data, offset)], best, data[offset])
  {
    hide IsBest, ChunkAt;
    var n := data[offset];
    var base := offset + 13;
    ghost var c := ChunkAt(data, offset);
    best := best0;
    var track := 0;
    while track < n
      invariant 0 <= track <= n
      invariant forall i: nat | i < track :: i in best && IsBest(hits + [c], i, best[i])
      invariant forall i: nat | track <= i :: (i in best <==> i in best0) && (i in best ==> best[i] == best0[i])
    {
      var confidence := data[base + track * 9];
      ConfidenceAt(data, offset, track);
      var before := if track in best then best[track] else 0;
      var now := if before < confidence then confidence else before;
      Raise(hits, c, track, before, confidence);
      best := best[track := now];
      track := track + 1;
    }
  }

  lemma Raise(hits: seq<Chunk>, c: Chunk, track: nat, before: Byte, confidence: Byte)
    requires track < |c.tracks| && c.tracks[track].confidence == confidence
    requires if hits == [] then before == 0 else IsBest(hits, track, before)
    ensures IsBest(hits + [c], track, if before < confidence then confidence else before)
  {
    var all := hits + [c];
    assert c in all && forall x | x in hits :: x in all;
    if hits != [] && before >= confidence {
      var x :| x in hits && track < |x.tracks| && x.tracks[track].confidence == before;
      assert x in all;
    }
  }

  method Maximum(s: seq<Byte>) returns (m: Byte)
    requires s != []
    ensures IsMax(s, m)
  {
    m := s[0];
    var i := 1;
    while i < |s|
      invariant 1 <= i <= |s|
      invariant m in s[..i] && forall x | x in s[..i] :: x <= m
    {
      assert s[..i + 1] == s[..i] + [s[i]];
      if s[i] > m { m := s[i]; }
      i := i + 1;
    }
    assert s[..i] == s;
  }

  lemma MatchesAll(cs: seq<Chunk>, d: Disc)
    ensures AllMatch(Matching(cs, d), d)
  {
    MatchingIs(cs, d);
  }

  predicate AllMatch(hits: seq<Chunk>, d: Disc) { forall c | c in hits :: Matches(c, d) }

  lemma MatchingPrefix(done: seq<Chunk>, c: Chunk, d: Disc)
    ensures Matching(done + [c], d) == Matching(done, d) + if Matches(c, d) then [c] else []
  {
    assert (done + [c])[..|done|] == done;
  }

  lemma {:induction false} ChunksWellFormed(b: seq<Byte>)
    ensures forall c | c in Chunks(b) :: WellFormed(c)
    decreases |b|
  {
    if Starts(b) { ChunksWellFormed(b[Size(b)..]); }
  }

  /** The chunks before `offset` are counted. */
  ghost predicate Counted(data: seq<Byte>, offset: nat, d: Disc, done: seq<Chunk>, pressings: nat, best: map<nat, Byte>) {
    && offset <= |data| && Chunks(data) == done + From(data, offset)
    && CountOf(Matching(done, d), d, pressings, best)
  }

  ghost predicate CountOf(hits: seq<Chunk>, d: Disc, pressings: nat, best: map<nat, Byte>) {
    pressings == |hits| && Best(hits, best, d.trackCount) && (hits == [] ==> best == map[])
  }

  lemma Regroup(done: seq<Chunk>, c: Chunk, rest: seq<Chunk>)
    ensures done + ([c] + rest) == (done + [c]) + rest
  {
  }

  lemma CountedNext(data: seq<Byte>, offset: nat, d: Disc, done: seq<Chunk>, pressings: nat, best: map<nat, Byte>)
    requires StartsAt(data, offset) && Chunks(data) == done + From(data, offset)
    requires var c := ChunkAt(data, offset);
             CountOf(Matching(done, d) + (if Matches(c, d) then [c] else []), d, pressings, best)
    ensures Counted(data, offset + ChunkSize(data[offset]), d, done + [ChunkAt(data, offset)], pressings, best)
  {
    var c := ChunkAt(data, offset);
    Here(data, offset);
    MatchingPrefix(done, c, d);
    Regroup(done, c, From(data, offset + ChunkSize(data[offset])));
    hide Chunks, From, ChunkAt, Matching, CountOf, Matches;
  }

  lemma CountedFirst(data: seq<Byte>, d: Disc)
    ensures Counted(data, 0, d, [], 0, map[])
  {
    assert data[0..] == data;
  }

  lemma CountedLast(data: seq<Byte>, offset: nat, d: Disc, done: seq<Chunk>, pressings: nat, best: map<nat, Byte>)
    requires Counted(data, offset, d, done, pressings, best) && !StartsAt(data, offset)
    ensures CountOf(Matching(Chunks(data), d), d, pressings, best)
  {
    Here(data, offset);
    hide Chunks, From, Matching, CountOf;
    assert Chunks(data) == done;
  }

  /** One chunk: count it if it is for this disc. */
  method Count(data: seq<Byte>, offset: nat, d: Disc, ghost done: seq<Chunk>, pressings0: nat, best0: map<nat, Byte>)
    returns (pressings: nat, best: map<nat, Byte>)
    requires Counted(data, offset, d, done, pressings0, best0) && StartsAt(data, offset)
    ensures Counted(data, offset + ChunkSize(data[offset]), d, done + [ChunkAt(data, offset)], pressings, best)
  {
    ghost var hits := Matching(done, d);
    ghost var c := ChunkAt(data, offset);
    HeaderAt(data, offset);
    MatchesAll(done, d);
    hide Chunks, From, ChunkAt, Matching, Word4, Best;
    var id1 := Word4(data[offset + 1..offset + 5]);
    var id2 := Word4(data[offset + 5..offset + 9]);
    var cddb := Word4(data[offset + 9..offset + 13]);
    pressings, best := pressings0, best0;
    if id1 == d.id1 && id2 == d.id2 && cddb == d.cddb && data[offset] == d.trackCount {
      best := Merge(data, offset, best, hits);
      pressings := pressings + 1;
      assert CountOf(hits + [c], d, pressings, best);
    } else {
      assert hits + [] == hits;
    }
    CountedNext(data, offset, d, done, pressings, best);
  }

  /** The loop over the body. */
  method Scan(data: seq<Byte>, d: Disc) returns (pressings: nat, best: map<nat, Byte>)
    ensures CountOf(Matching(Chunks(data), d), d, pressings, best)
  {
    hide Counted, CountOf, ChunkAt, Matching, Chunks;
    best := map[];
    pressings := 0;
    var offset := 0;
    ghost var done: seq<Chunk> := [];
    CountedFirst(data, d);
    while offset + 13 <= |data|
      invariant 0 <= offset <= |data| && Counted(data, offset, d, done, pressings, best)
    {
      var n := data[offset];
      if n == 0 || offset + ChunkSize(n) > |data| { break; }
      pressings, best := Count(data, offset, d, done, pressings, best);
      done := done + [ChunkAt(data, offset)];
      offset := offset + ChunkSize(n);
    }
    CountedLast(data, offset, d, done, pressings, best);
  }

  /** `parse_accuraterip`: on any bytes at all, the chunks of this disc and nothing
      else are counted, each track's confidence is the greatest among them, and
      nothing is found exactly when there are none. */
  method ParseAccurateRip(data: seq<Byte>, d: Disc) returns (r: Lookup)
    ensures Describes(r, Chunks(data), d)
  {
    if data == [] { return NOT_FOUND; }
    var pressings, best := Scan(data, d);
    ghost var hits := Matching(Chunks(data), d);
    hide IsBest, Chunks;
    if pressings == 0 { return NOT_FOUND; }
    MatchingIs(Chunks(data), d);
    ChunksWellFormed(data);
    assert hits[0] in hits && |hits[0].tracks| == d.trackCount;
    var perTrack: seq<Byte> := seq(d.trackCount, i requires 0 <= i < d.trackCount && i in best => best[i]);
    var top := Maximum(perTrack);
    r := Lookup(true, pressings, top, d.trackCount, perTrack);
  }

  /** The submissions for a disc, by position: all three ids and the track count agree. */
  function HitsAt(cs: seq<Chunk>, d: Disc): set<int> {
    set i | 0 <= i < |cs| && cs[i].id1 == d.id1 && cs[i].id2 == d.id2 && cs[i].cddb == d.cddb && |cs[i].tracks| == d.trackCount
  }

  lemma HitsAtLast(cs: seq<Chunk>, d: Disc)
    requires cs != []
    ensures var n := |cs| - 1;
            && n !in HitsAt(cs[..n], d)
            && HitsAt(cs, d) == if Matches(cs[n], d) then HitsAt(cs[..n], d) + {n} else HitsAt(cs[..n], d)
  {
  }

  lemma {:induction false} MatchingSize(cs: seq<Chunk>, d: Disc)
    ensures |Matching(cs, d)| == |HitsAt(cs, d)|
  {
    if cs != [] {
      MatchingSize(cs[..|cs| - 1], d);
      HitsAtLast(cs, d);
      hide HitsAt, Matches;
    }
  }

  /** The end-to-end promise: for every list of chunks and every tail that is no whole
      chunk, what is found is what was submitted for this disc: how many times, and for
      each track the greatest confidence among those submissions. */
  lemma LookupOfSubmissions(cs: seq<Chunk>, tail: seq<Byte>, d: Disc, r: Lookup)
    requires (forall c | c in cs :: WellFormed(c)) && !Starts(tail)
    requires Describes(r, Chunks(EncodeAll(cs) + tail), d)
    ensures r.found <==> |HitsAt(cs, d)| > 0
    ensures r.pressings == |HitsAt(cs, d)| && (r.found ==> |r.perTrack| == r.trackCount == d.trackCount)
    ensures r.found ==> forall t | 0 <= t < |r.perTrack| :: BestAt(cs, d, t, r.perTrack[t])
    ensures r.found ==> r.maxConfidence in r.perTrack && forall x | x in r.perTrack :: x <= r.maxConfidence
  {
    BodyRoundTrip(cs, tail);
    MatchingIs(cs, d);
    MatchingSize(cs, d);
    hide Chunks, EncodeAll, Matching, HitsAt, IsBest;
    if Matching(cs, d) != [] {
      forall t | 0 <= t < |r.perTrack|
        ensures BestAt(cs, d, t, r.perTrack[t])
      {
        BestOfHits(cs, d, t, r.perTrack[t]);
      }
    }
  }

  /** The greatest confidence of a track over the submissions for a disc. */
  predicate BestAt(cs: seq<Chunk>, d: Disc, t: nat, m: Byte) {
    && (forall i | i in HitsAt(cs, d) :: t < |cs[i].tracks| && cs[i].tracks[t].confidence <= m)
    && (exists i | i in HitsAt(cs, d) :: t < |cs[i].tracks| && cs[i].tracks[t].confidence == m)
  }

  lemma BestOfHits(cs: seq<Chunk>, d: Disc, t: nat, m: Byte)
    requires t < d.trackCount && IsBest(Matching(cs, d), t, m)
    ensures BestAt(cs, d, t, m)
  {
    MatchingIs(cs, d);
    var hits := Matching(cs, d);
    hide Matching;
    assert forall i | i in HitsAt(cs, d) :: cs[i] in cs && Matches(cs[i], d) && cs[i] in hits;
    var c :| c in hits && t < |c.tracks| && c.tracks[t].confidence == m;
    var k :| 0 <= k < |cs| && cs[k] == c;
    assert k in HitsAt(cs, d);
  }
}
