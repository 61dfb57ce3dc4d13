/** Tables of contents from a completed rip: the builders of app/cd_toc.py. */
module Toc {
  import opened Wrappers
  import CueToc

  datatype Toc = Toc(offsets: seq<int>, leadout: int, trackCount: nat)

  const SAMPLES_PER_FRAME := 588

  /** Starts at zero, strictly increases, and ends before the lead-out. */
  predicate IsToc(t: Toc) {
    && t.offsets != [] && t.offsets[0] == 0 && t.trackCount == |t.offsets|
    && (forall i | 0 <= i < |t.offsets| - 1 :: t.offsets[i] < t.offsets[i + 1])
    && t.offsets[|t.offsets| - 1] < t.leadout
  }

  function Length(t: Toc, i: nat): int
    requires i < |t.offsets|
  {
    (if i + 1 < |t.offsets| then t.offsets[i + 1] else t.leadout) - t.offsets[i]
  }

  /** The length of each track in frames. */
  predicate HasLengths(t: Toc, lengths: seq<int>) {
    |t.offsets| == |lengths| && forall i | 0 <= i < |lengths| :: Length(t, i) == lengths[i]
  }

  function Sum(s: seq<int>): int {
    if s == [] then 0 else Sum(s[..|s| - 1]) + s[|s| - 1]
  }

  lemma SumOneMore(s: seq<int>, x: int)
    ensures Sum(s + [x]) == Sum(s) + x
  {
    assert (s + [x])[..|s|] == s;
  }

  /** A TOC is determined by its track lengths. */
  lemma {:induction false} SameLengths(a: Toc, b: Toc, lengths: seq<int>, n: nat)
    requires IsToc(a) && IsToc(b) && HasLengths(a, lengths) && HasLengths(b, lengths) && n < |lengths|
    ensures a.offsets[..n + 1] == b.offsets[..n + 1] && (n == |lengths| - 1 ==> a == b)
  {
    if n > 0 {
      SameLengths(a, b, lengths, n - 1);
      assert Length(a, n - 1) == lengths[n - 1] == Length(b, n - 1);
      assert a.offsets[n - 1] == a.offsets[..n][n - 1] == b.offsets[..n][n - 1] == b.offsets[n - 1];
    }
    assert Length(a, n) == lengths[n] == Length(b, n);
    if n == |lengths| - 1 {
      assert a.offsets == a.offsets[..n + 1] && b.offsets == b.offsets[..n + 1];
    }
  }

  /** The TOC of some tracks; before the first there is none. */
  predicate Describes(t: Toc, lengths: seq<int>) {
    if lengths == [] then t == Toc([], 0, 0)
    else IsToc(t) && HasLengths(t, lengths) && t.leadout == Sum(lengths)
  }

  /** One more track, after the lead-out so far. */
  lemma Extend(t: Toc, lengths: seq<int>, x: int)
    requires Describes(t, lengths) && x > 0
    ensures Describes(Toc(t.offsets + [t.leadout], t.leadout + x, |t.offsets| + 1), lengths + [x])
  {
    var u := Toc(t.offsets + [t.leadout], t.leadout + x, |t.offsets| + 1);
    SumOneMore(lengths, x);
    hide Sum;
    forall i | 0 <= i < |lengths| + 1 ensures Length(u, i) == (lengths + [x])[i] {
      if i < |lengths| { assert Length(u, i) == Length(t, i); }
    }
  }

  /** `build_toc_from_track_lengths`: there is a TOC exactly for a non-empty list of
      positive lengths, and it is the only one with those lengths. */
  method BuildTocFromTrackLengths(lengths: seq<int>) returns (r: Option<Toc>)
    ensures r.Some? <==> lengths != [] && forall n | n in lengths :: n > 0
    ensures r.Some? ==> IsToc(r.value) && HasLengths(r.value, lengths) && r.value.leadout == Sum(lengths)
    ensures r.Some? ==> forall t | IsToc(t) && HasLengths(t, lengths) :: t == r.value
  {
    if lengths == [] || exists n | n in lengths :: n <= 0 { return None; }
    var offsets, running := [], 0;
    var i := 0;
    while i < |lengths|
      invariant 0 <= i <= |lengths| && |offsets| == i
      invariant Describes(Toc(offsets, running, i), lengths[..i])
    {
      hide Describes;
      assert lengths[i] in lengths && lengths[..i + 1] == lengths[..i] + [lengths[i]];
      Extend(Toc(offsets, running, i), lengths[..i], lengths[i]);
      offsets := offsets + [running];
      running := running + lengths[i];
      i := i + 1;
    }
    assert lengths[..i] == lengths;
    r := Some(Toc(offsets, running, |offsets|));
    forall t | IsToc(t) && HasLengths(t, lengths) ensures t == r.value {
      SameLengths(t, r.value, lengths, |lengths| - 1);
    }
  }

  /** `_samples_to_frames`. */
  function SamplesToFrames(samples: int): (r: Option<int>)
    ensures r.Some? <==> Aligned(samples)
    ensures r.Some? ==> r.value > 0 && r.value * 588 == samples
  {
    if samples <= 0 || samples % SAMPLES_PER_FRAME != 0 then None else Some(samples / SAMPLES_PER_FRAME)
  }

  predicate Aligned(samples: int) { samples > 0 && samples % 588 == 0 }

  /** A file whose sample count could be read and is a whole number of frames. */
  predicate Usable(file: Option<int>) { file.Some? && Aligned(file.value) }

  function Samples(files: seq<Option<int>>): seq<int>
    requires forall i | 0 <= i < |files| :: Usable(files[i])
  {
    seq(|files|, i requires 0 <= i < |files| && Usable(files[i]) => files[i].value)
  }

  lemma {:induction false} SumScaled(frames: seq<int>, samples: seq<int>)
    requires |frames| == |samples| && forall i | 0 <= i < |frames| :: frames[i] * 588 == samples[i]
    ensures Sum(frames) * 588 == Sum(samples)
  {
    if frames != [] {
      SumScaled(frames[..|frames| - 1], samples[..|samples| - 1]);
    }
  }

  /** `_toc_from_per_track`: a TOC exactly when every file is frame-aligned audio; each
      track is as long as its file, and the lead-out is the sum of all samples. */
  method TocFromPerTrack(files: seq<Option<int>>) returns (r: Option<Toc>)
    ensures r.Some? <==> files != [] && forall i | 0 <= i < |files| :: Usable(files[i])
    ensures r.Some? ==> && IsToc(r.value) && |r.value.offsets| == |files|
                        && r.value.leadout * 588 == Sum(Samples(files))
                        && forall i | 0 <= i < |files| :: Length(r.value, i) * 588 == files[i].value
  {
    var lengths: seq<int> := [];
    var i := 0;
    while i < |files|
      invariant 0 <= i <= |files| && |lengths| == i
      invariant forall k | 0 <= k < i :: Usable(files[k]) && lengths[k] > 0 && lengths[k] * 588 == files[k].value
    {
      if files[i].None? { return None; }
      var frames := SamplesToFrames(files[i].value);
      if frames.None? { return None; }
      lengths := lengths + [frames.value];
      i := i + 1;
    }
    r := BuildTocFromTrackLengths(lengths);
    SumScaled(lengths, Samples(files));
  }

  predicate Increasing(s: seq<int>) { forall i | 0 <= i < |s| - 1 :: s[i] < s[i + 1] }

  /** A regular cue sheet whose tracks start at zero, strictly increase, and end before
      the lead-out. */
  predicate Fits(cue: seq<CueToc.Line>, samples: int) {
    CueToc.Regular(cue) &&
    var offsets := CueToc.TrackOffsets(cue);
    offsets[0] == 0 && Increasing(offsets) && offsets[|offsets| - 1] * 588 < samples
  }

  /** `_toc_from_single_image`: a TOC exactly when there is a cue sheet that fits an image
      of whole frames; it holds the sheet's offsets and the image's length. */
  method TocFromSingleImage(image: Option<int>, cue: Option<seq<CueToc.Line>>) returns (r: Option<Toc>)
    ensures r.Some? <==> cue.Some? && Usable(image) && Fits(cue.value, image.value)
    ensures r.Some? ==> && IsToc(r.value) && r.value.offsets == CueToc.TrackOffsets(cue.value)
                        && r.value.leadout * 588 == image.value
  {
    hide CueToc.Regular, CueToc.OffsetsOf, CueToc.TrackOffsets;
    if cue.None? || image.None? { return None; }
    var leadout := SamplesToFrames(image.value);
    if leadout.None? { return None; }
    var offsets := CueToc.ParseCueOffsets(cue.value);
    if offsets == [] { return None; }
    assert offsets == CueToc.TrackOffsets(cue.value);
    if offsets[0] != 0 { return None; }
    for i := 0 to |offsets| - 1
      invariant forall k | 0 <= k < i :: offsets[k] < offsets[k + 1]
    {
      if offsets[i + 1] <= offsets[i] { return None; }
    }
    if offsets[|offsets| - 1] >= leadout.value { return None; }
    r := Some(Toc(offsets, leadout.value, |offsets|));
  }

  /** `reconstruct_toc`, given the sample counts of the FLAC files and the first cue
      sheet: whatever comes back is a TOC whose lead-out is all the audio there is. */
  method ReconstructToc(files: seq<Option<int>>, cue: Option<seq<CueToc.Line>>) returns (r: Option<Toc>)
    ensures r.Some? ==> && IsToc(r.value) && (forall i | 0 <= i < |files| :: Usable(files[i]))
                        && r.value.leadout * 588 == Sum(Samples(files))
    ensures |files| == 1 ==> (r.Some? <==> cue.Some? && Usable(files[0]) && Fits(cue.value, files[0].value))
    ensures |files| == 1 && r.Some? ==> r.value.offsets == CueToc.TrackOffsets(cue.value)
    ensures |files| != 1 && r.Some? ==>
              |r.value.offsets| == |files| && forall i | 0 <= i < |files| :: Length(r.value, i) * 588 == files[i].value
    ensures |files| != 1 ==> (r.Some? <==> files != [] && forall i | 0 <= i < |files| :: Usable(files[i]))
  {
    hide Fits, IsToc, Aligned;
    if files == [] { return None; }
    if |files| == 1 {
      r := TocFromSingleImage(files[0], cue);
      if r.Some? {
        assert Samples(files) == [] + [files[0].value];
        SumOneMore([], files[0].value);
      }
    } else {
      r := TocFromPerTrack(files);
    }
  }
}
