/** The decision pipeline: app/verification.py and the stages that
    `_compute_verification` of app/server.py puts around it. */
module Decision {
  import opened Wrappers
  import Comparison

  datatype Decision = Accept | Provisional | NeedsReview | Block

  datatype Identity = SameRelease | SameFamily | AmbiguousEdition | InsufficientEvidence | WrongAlbum

  datatype Detective = Authentic | Warning | Suspicious | FakeCertain | Fake | Unknown | Errored | Other

  datatype Override = CodecMismatch | FlacFailed | ValidatorError | SuspiciousCap | FakeHiRes | NoAudioFiles

  datatype RipStatus = RipPass | RipWarn | RipOther

  /** Evidence of a CD rip: its status, the AccurateRip verdict, and whether a log backs it. */
  datatype Rip = Rip(status: RipStatus, accurate: bool, log: bool)

  datatype File = File(depth: Option<int>, rate: Option<int>)

  /** What was collected about a download before it is judged, and the opt-in flags. */
  datatype Context = Context(
    detective: Detective, detectiveError: bool, fakeHiRes: bool,
    audioFiles: nat, hasFlac: bool, gateSkipped: bool, complete: bool,
    existingKbps: nat, newKbps: nat, existingTracks: nat, expectedTracks: nat,
    identity: Identity,
    rip: Option<Rip>, ripScoring: bool,
    measuring: bool, files: seq<File>, existing: seq<Comparison.Row>, spectralOn: bool, integrityOn: bool)

  datatype Components = Components(ffprobe: nat, flacT: nat, detective: nat, complete: nat)

  function ComputeComponents(ffprobeOk: bool, flacOk: bool, d: Detective, complete: bool): Components {
    Components(
      if ffprobeOk then 25 else 0,
      if flacOk then 25 else 0,
      match d case Authentic => 35 case Warning => 18 case Suspicious => 5 case _ => 0,
      if complete then 15 else 0)
  }

  /** `apply_overrides`: score and overrides. */
  function ApplyOverrides(c: Components, codec: bool, flacFailed: bool, validator: bool, fakeHiRes: bool, d: Detective)
    : (nat, seq<Override>)
  {
    if codec then (0, [CodecMismatch])
    else if flacFailed then (0, [FlacFailed])
    else if validator then (0, [ValidatorError])
    else
      var score := c.ffprobe + c.flacT + c.detective + c.complete;
      var capped := d.Suspicious? && score > 60;
      (if capped then 60 else score,
       (if capped then [SuspiciousCap] else []) + (if fakeHiRes then [FakeHiRes] else []))
  }

  predicate Completes(existing: nat, candidate: nat, expected: nat) {
    expected > 0 && existing < expected && candidate >= expected
  }

  /** More than a fifth better, or nothing there. */
  predicate KbpsUpgrade(existing: nat, candidate: nat) { existing == 0 || 5 * candidate > 6 * existing }

  /** `decide`. */
  function Decide(score: nat, existing: nat, candidate: nat, d: Detective, o: seq<Override>, completes: bool): Decision {
    if CodecMismatch in o || FlacFailed in o || ValidatorError in o then Block
    else if FakeHiRes in o then NeedsReview
    else if d.FakeCertain? || d.Fake? then if existing > 0 && !completes then Block else NeedsReview
    else if existing >= 1400 && d.Suspicious? then if completes then Provisional else Block
    else if d.Suspicious? then if KbpsUpgrade(existing, candidate) || completes then Provisional else Block
    else if score < 20 then if completes then Provisional else Block
    else if score >= 70 then Accept
    else Provisional
  }

  // ----- the stages -----

  predicate ValidatorFailed(x: Context) {
    x.audioFiles > 0 && (x.detectiveError || x.detective.Unknown? || x.detective.Errored?)
  }

  predicate WrongCodec(x: Context) { (x.audioFiles > 0 && !x.hasFlac) || x.gateSkipped }

  function Scored(x: Context): (nat, seq<Override>) {
    var c := ComputeComponents(x.audioFiles > 0, !ValidatorFailed(x) && x.hasFlac, x.detective, x.complete);
    var (score, o) := ApplyOverrides(c, WrongCodec(x), false, ValidatorFailed(x), x.fakeHiRes, x.detective);
    if x.audioFiles == 0 then (0, o + [NoAudioFiles]) else (score, o)
  }

  function Audio(x: Context): Decision {
    var (score, o) := Scored(x);
    Decide(score, x.existingKbps, x.newKbps, x.detective, o, Completes(x.existingTracks, x.audioFiles, x.expectedTracks))
  }

  /** `_apply_cd_rip_scoring`. */
  function AfterRip(d: Decision, rip: Rip): Decision {
    if d.NeedsReview? && rip.status.RipPass? && rip.accurate then Provisional
    else if (d.Accept? || d.Provisional?) && rip.status.RipWarn? && rip.log then NeedsReview
    else d
  }

  function MinTier(files: seq<File>, lossless: bool): nat {
    if files == [] then 0
    else
      var t := Comparison.TierRank(Some(lossless), files[0].depth, files[0].rate);
      if |files| == 1 then t else var rest := MinTier(files[1..], lossless); if t < rest then t else rest
  }

  /** `_candidate_quality`. */
  function CandidateOf(x: Context): Comparison.Candidate {
    var o := Scored(x).1;
    var valid := CodecMismatch !in o && FlacFailed !in o && ValidatorError !in o && NoAudioFiles !in o;
    Comparison.Candidate(
      valid,
      x.detective.Authentic? && FakeHiRes !in o,
      MinTier(x.files, valid),
      x.expectedTracks > 0 && x.audioFiles >= x.expectedTracks,
      x.files != [] && forall f | f in x.files :: f.depth.Some? && f.rate.Some?)
  }

  /** `_map_measured_verdict`. */
  function AfterVerdict(d: Decision, v: Comparison.Verdict): Decision {
    if d.Block? then Block
    else if (v.Downgrade? || v.Review?) && (d.Accept? || d.Provisional?) then NeedsReview
    else if v.Upgrade? && d.NeedsReview? then Provisional
    else d
  }

  function MeasuredVerdict(x: Context): Comparison.Verdict {
    Comparison.Judge(CandidateOf(x), x.existing,
      Comparison.Policy(x.expectedTracks > 0 && x.existingTracks < x.expectedTracks, x.spectralOn, x.integrityOn))
  }

  /** `_apply_measured_existing`; without measured rows the decision is left alone. */
  function AfterMeasured(d: Decision, x: Context): Decision {
    if Comparison.AlbumQuality(x.existing).None? then d else AfterVerdict(d, MeasuredVerdict(x))
  }

  /** `combine_audio_identity_decision`. */
  function Combine(audio: Decision, identity: Identity): Decision {
    if audio.Block? || identity.WrongAlbum? then Block
    else if audio.NeedsReview? || identity.AmbiguousEdition? || identity.InsufficientEvidence? then NeedsReview
    else audio
  }

  predicate LargerEdition(identity: Identity, candidate: nat, expected: nat) {
    && (identity.SameFamily? || identity.AmbiguousEdition?)
    && expected > 0 && candidate > 0
    && (candidate >= expected + 4 || 2 * candidate >= 3 * expected)
  }

  predicate Undercount(identity: Identity, candidate: nat, expected: nat, existing: nat) {
    && (identity.SameRelease? || identity.SameFamily? || identity.AmbiguousEdition?)
    && expected > 0 && candidate > 0 && existing >= expected && candidate < expected
  }

  /** `apply_track_count_guard`. */
  function AfterCount(d: Decision, x: Context): Decision {
    if (d.Accept? || d.Provisional?)
       && (LargerEdition(x.identity, x.audioFiles, x.expectedTracks)
           || Undercount(x.identity, x.audioFiles, x.expectedTracks, x.existingTracks))
    then NeedsReview else d
  }

  function RipStage(x: Context): Decision {
    if x.rip.Some? && x.ripScoring then AfterRip(Audio(x), x.rip.value) else Audio(x)
  }

  function MeasuredStage(x: Context): Decision {
    if x.measuring then AfterMeasured(RipStage(x), x) else RipStage(x)
  }

  /** The decision of `_compute_verification`. */
  function Final(x: Context): Decision {
    AfterCount(Combine(MeasuredStage(x), x.identity), x)
  }

  // ----- what the scores come to -----

  /** The audio decision without any score. */
  function Table(x: Context): Decision {
    var completes := Completes(x.existingTracks, x.audioFiles, x.expectedTracks);
    if WrongCodec(x) || ValidatorFailed(x) then Block
    else if x.fakeHiRes then NeedsReview
    else
      match x.detective
      case FakeCertain => if x.existingKbps > 0 && !completes then Block else NeedsReview
      case Fake => if x.existingKbps > 0 && !completes then Block else NeedsReview
      case Suspicious =>
        if completes || (x.existingKbps < 1400 && KbpsUpgrade(x.existingKbps, x.newKbps)) then Provisional else Block
      case _ =>
        if x.audioFiles == 0 then Block
        else if x.detective.Authentic? || (x.detective.Warning? && x.complete) then Accept
        else Provisional
  }

  /** For every download, scores, caps and thresholds amount to the table: an authentic
      verdict is accepted outright, a warning only for a complete album, and the
      low-score block is the case of no audio at all. */
  lemma ScoresAmountToTable(x: Context)
    ensures Audio(x) == Table(x)
  {
    if WrongCodec(x) || ValidatorFailed(x) {
      GatesOverride(x);
    } else {
      ScoreIs(x);
    }
    hide Scored, WrongCodec, ValidatorFailed, Completes, KbpsUpgrade;
  }

  lemma GatesOverride(x: Context)
    requires WrongCodec(x) || ValidatorFailed(x)
    ensures CodecMismatch in Scored(x).1 || ValidatorError in Scored(x).1
  {
    hide ComputeComponents;
  }

  /** Past the gates, the score says no more than the verdict, completeness, and whether
      there is any audio. */
  lemma ScoreIs(x: Context)
    requires !WrongCodec(x) && !ValidatorFailed(x)
    ensures var (score, o) := Scored(x);
            && CodecMismatch !in o && FlacFailed !in o && ValidatorError !in o && (FakeHiRes in o <==> x.fakeHiRes)
            && (x.audioFiles == 0 ==> score < 20)
            && (x.audioFiles > 0 ==> score >= 20)
            && (x.audioFiles > 0 && !x.detective.Suspicious? && !x.detective.Fake? && !x.detective.FakeCertain? ==>
                (score >= 70 <==> x.detective.Authentic? || (x.detective.Warning? && x.complete)))
  {
  }

  // ----- what the stages may do -----

  /** Under every combination of flags and evidence: the final decision is a block if
      and only if the audio decision was one or the album is the wrong one. */
  lemma BlockIff(x: Context)
    ensures Final(x).Block? <==> Audio(x).Block? || x.identity.WrongAlbum?
  {
    hide Audio, MeasuredVerdict, Comparison.AlbumQuality;
  }

  /** No later stage produces a full accept: it comes from the audio decision, for a
      known release, when no stage objects. */
  lemma AcceptIff(x: Context)
    ensures Final(x).Accept? <==>
            && Audio(x).Accept? && (x.identity.SameRelease? || x.identity.SameFamily?)
            && !(x.ripScoring && x.rip.Some? && x.rip.value.status.RipWarn? && x.rip.value.log)
            && !(x.measuring && Comparison.AlbumQuality(x.existing).Some?
                 && (MeasuredVerdict(x).Downgrade? || MeasuredVerdict(x).Review?))
            && !TooMany(x) && !TooFew(x)
  {
    if x.identity.SameRelease? || x.identity.SameFamily? { CountGuards(x); }
    hide Audio, MeasuredVerdict, Comparison.AlbumQuality, LargerEdition, Undercount, TooMany, TooFew;
  }

  /** A release of the family with four tracks, or half as many again, over what is
      expected; and a release with fewer, where all expected ones are there already. */
  predicate TooMany(x: Context) {
    && x.identity.SameFamily? && x.expectedTracks > 0 && x.audioFiles > 0
    && (x.audioFiles >= x.expectedTracks + 4 || x.audioFiles as real >= 1.5 * x.expectedTracks as real)
  }

  predicate TooFew(x: Context) { 0 < x.audioFiles < x.expectedTracks <= x.existingTracks }

  lemma CountGuards(x: Context)
    requires x.identity.SameRelease? || x.identity.SameFamily?
    ensures LargerEdition(x.identity, x.audioFiles, x.expectedTracks) <==> TooMany(x)
    ensures Undercount(x.identity, x.audioFiles, x.expectedTracks, x.existingTracks) <==> TooFew(x)
  {
  }

  /** The measured comparison says upgrade only of a valid candidate with an authentic
      verdict. */
  lemma UpgradeNeedsAuthentic(x: Context)
    requires MeasuredVerdict(x).Upgrade?
    ensures x.detective.Authentic? && !WrongCodec(x) && !ValidatorFailed(x) && x.audioFiles > 0 && !x.fakeHiRes
  {
    hide Comparison.AlbumQuality, MinTier;
  }

  /** The measured comparison lifts a review if and only if the CD-rip stage before it had
      just demoted a full accept, and there is a measured release that the candidate
      improves on. A review that the audio rules asked for is never lifted. */
  lemma MeasuredRescuesOnlyRips(x: Context)
    requires x.measuring
    ensures RipStage(x).NeedsReview? && !MeasuredStage(x).NeedsReview? <==>
            && Audio(x).Accept? && x.ripScoring && x.rip.Some? && x.rip.value.status.RipWarn? && x.rip.value.log
            && Comparison.AlbumQuality(x.existing).Some? && MeasuredVerdict(x).Upgrade?
    ensures RipStage(x).NeedsReview? && !MeasuredStage(x).NeedsReview? ==> MeasuredStage(x).Provisional?
  {
    Lifts(x);
    if Audio(x).Accept? { RipDemotes(x); }
    if MeasuredVerdict(x).Upgrade? { UpgradeIsAccepted(x); }
    hide MeasuredVerdict, Comparison.AlbumQuality, Audio, RipStage, MeasuredStage;
  }

  lemma Lifts(x: Context)
    requires x.measuring
    ensures RipStage(x).NeedsReview? ==>
              MeasuredStage(x) == if Comparison.AlbumQuality(x.existing).Some? && MeasuredVerdict(x).Upgrade?
                                  then Provisional else NeedsReview
  {
    hide RipStage, MeasuredVerdict, Comparison.AlbumQuality;
  }

  lemma RipDemotes(x: Context)
    requires Audio(x).Accept?
    ensures RipStage(x).NeedsReview? <==> x.ripScoring && x.rip.Some? && x.rip.value.status.RipWarn? && x.rip.value.log
  {
    hide Audio;
  }

  lemma UpgradeIsAccepted(x: Context)
    requires MeasuredVerdict(x).Upgrade?
    ensures Audio(x).Accept?
  {
    UpgradeNeedsAuthentic(x);
    ScoresAmountToTable(x);
    hide MeasuredVerdict, Audio;
  }

  predicate Automatic(d: Decision) { d.Accept? || d.Provisional? }

  predicate SignsOfFake(x: Context) { x.fakeHiRes || x.detective.Fake? || x.detective.FakeCertain? }

  predicate Rescued(x: Context) {
    x.ripScoring && x.rip.Some? && x.rip.value.status.RipPass? && x.rip.value.accurate
  }

  /** A download that looks fake is imported automatically if and only if it passed the
      hard gates and blocks, an accurate CD rip rescued it with that scoring switched
      on, it is a known release with a plausible track count, and there is no measured
      existing release to compare it with; and then it is imported provisionally. */
  lemma FakesNeedARip(x: Context)
    requires SignsOfFake(x)
    ensures Automatic(Final(x)) <==>
            && !WrongCodec(x) && !ValidatorFailed(x)
            && (x.fakeHiRes || x.existingKbps == 0 || Completes(x.existingTracks, x.audioFiles, x.expectedTracks))
            && Rescued(x)
            && (x.identity.SameRelease? || x.identity.SameFamily?)
            && !TooMany(x) && !TooFew(x)
            && (x.measuring ==> Comparison.AlbumQuality(x.existing).None?)
    ensures !Final(x).Accept?
  {
    FakeAudio(x);
    ScoresAmountToTable(x);
    AcceptIff(x);
    ProvisionalIff(x);
    SignsAreNoUpgrade(x);
    hide Final, Audio, Table, MeasuredVerdict, Comparison.AlbumQuality, TooMany, TooFew, Completes, Rescued, RipAgainst,
         WrongCodec, ValidatorFailed, SignsOfFake;
  }

  lemma FakeAudio(x: Context)
    requires SignsOfFake(x)
    ensures Audio(x).Block? || Audio(x).NeedsReview?
    ensures Audio(x).NeedsReview? <==>
            && !WrongCodec(x) && !ValidatorFailed(x)
            && (x.fakeHiRes || x.existingKbps == 0 || Completes(x.existingTracks, x.audioFiles, x.expectedTracks))
  {
    ScoresAmountToTable(x);
    hide Audio, WrongCodec, ValidatorFailed, Completes;
  }

  lemma SignsAreNoUpgrade(x: Context)
    requires SignsOfFake(x)
    ensures MeasuredVerdict(x).Downgrade? || MeasuredVerdict(x).Review?
  {
    ScoredFlags(x);
    hide Comparison.AlbumQuality, MinTier, Scored;
  }

  /** A candidate that is valid and authentic shows no sign of a fake. */
  lemma ScoredFlags(x: Context)
    ensures CandidateOf(x).valid && CandidateOf(x).authentic ==> !SignsOfFake(x)
  {
    hide MinTier;
  }

  // ----- in terms of the download alone -----

  /** Every ground for a block: the wrong album; files or a validator that fail the hard
      gates; no audio; or, where no header says fake and the candidate does not complete the
      album, a fake over something that is there, or a suspicious one over lossless or
      without a gain of more than a fifth. */
  lemma BlockedBecause(x: Context)
    ensures Final(x).Block? <==>
            || x.identity.WrongAlbum?
            || x.gateSkipped || (x.audioFiles > 0 && (!x.hasFlac || x.detectiveError || x.detective.Unknown? || x.detective.Errored?))
            || (!x.fakeHiRes && x.audioFiles == 0 && !(x.detective.Fake? || x.detective.FakeCertain? || x.detective.Suspicious?))
            || (&& !x.fakeHiRes
                && !(x.expectedTracks > 0 && x.existingTracks < x.expectedTracks && x.audioFiles >= x.expectedTracks)
                && (|| ((x.detective.Fake? || x.detective.FakeCertain?) && x.existingKbps > 0)
                    || (x.detective.Suspicious? &&
                        (x.existingKbps >= 1400
                         || (x.existingKbps > 0 && x.newKbps as real <= 1.2 * x.existingKbps as real)))))
  {
    BlockIff(x);
    ScoresAmountToTable(x);
    KbpsFactor(x.existingKbps, x.newKbps);
    hide Final, Audio, KbpsUpgrade;
  }

  lemma KbpsFactor(existing: nat, candidate: nat)
    ensures KbpsUpgrade(existing, candidate) <==> existing == 0 || candidate as real > 1.2 * existing as real
  {
  }

  /** The CD-rip evidence counts, and speaks against the download. */
  predicate RipAgainst(x: Context) { x.ripScoring && x.rip.Some? && x.rip.value.status.RipWarn? && x.rip.value.log }

  /** There is a measured release, and the comparison does not favour the candidate. */
  predicate MeasuredAgainst(x: Context) {
    x.measuring && Comparison.AlbumQuality(x.existing).Some? && (MeasuredVerdict(x).Downgrade? || MeasuredVerdict(x).Review?)
  }

  /** Exactly when a download is accepted provisionally: a known release with a plausible
      track count, and a provisional audio decision that neither the rip nor the measured
      release speaks against, or a review that an accurate rip lifts, or an accept that the
      rip demoted and an upgrade lifted again. */
  lemma ProvisionalIff(x: Context)
    ensures Final(x).Provisional? <==>
            && (x.identity.SameRelease? || x.identity.SameFamily?)
            && !TooMany(x) && !TooFew(x)
            && (|| (Table(x).Provisional? && !RipAgainst(x) && !MeasuredAgainst(x))
                || (Table(x).NeedsReview? && Rescued(x) && !MeasuredAgainst(x))
                || (&& Table(x).Accept? && RipAgainst(x)
                    && x.measuring && Comparison.AlbumQuality(x.existing).Some? && MeasuredVerdict(x).Upgrade?))
  {
    ScoresAmountToTable(x);
    if MeasuredVerdict(x).Upgrade? { UpgradeIsAccepted(x); }
    MeasuredProvisional(x);
    if x.identity.SameRelease? || x.identity.SameFamily? { CountGuards(x); }
    FinalProvisional(x);
    hide Final, Audio, Table, MeasuredVerdict, Comparison.AlbumQuality, LargerEdition, Undercount, TooMany, TooFew, MeasuredStage,
         Rescued, RipAgainst, MeasuredAgainst;
  }

  lemma FinalProvisional(x: Context)
    ensures Final(x).Provisional? <==>
            && MeasuredStage(x).Provisional? && (x.identity.SameRelease? || x.identity.SameFamily?)
            && !LargerEdition(x.identity, x.audioFiles, x.expectedTracks)
            && !Undercount(x.identity, x.audioFiles, x.expectedTracks, x.existingTracks)
  {
    hide MeasuredStage, LargerEdition, Undercount;
  }

  lemma MeasuredProvisional(x: Context)
    requires MeasuredVerdict(x).Upgrade? ==> Audio(x).Accept?
    ensures MeasuredStage(x).Provisional? <==>
            || (Audio(x).Provisional? && !RipAgainst(x) && !MeasuredAgainst(x))
            || (Audio(x).NeedsReview? && Rescued(x) && !MeasuredAgainst(x))
            || (&& Audio(x).Accept? && RipAgainst(x)
                && x.measuring && Comparison.AlbumQuality(x.existing).Some? && MeasuredVerdict(x).Upgrade?)
  {
    hide Audio, MeasuredVerdict, Comparison.AlbumQuality;
  }

  /** What is compared for a candidate: it is valid if it passes the gates, complete by its
      track count, and as good as its worst file, if every file says how good it is. */
  lemma CandidateMeans(x: Context)
    ensures var c := CandidateOf(x);
            && (c.valid <==> x.audioFiles > 0 && x.hasFlac && !x.gateSkipped
                             && !(x.detectiveError || x.detective.Unknown? || x.detective.Errored?))
            && (c.valid ==> (c.authentic <==> x.detective.Authentic? && !x.fakeHiRes))
            && (c.complete <==> x.expectedTracks > 0 && x.audioFiles >= x.expectedTracks)
            && (c.tierKnown <==> x.files != [] && forall f | f in x.files :: f.depth.Some? && f.rate.Some?)
            && (forall f | f in x.files :: c.tier <= Comparison.TierRank(Some(c.valid), f.depth, f.rate))
            && (x.files != [] ==> exists f | f in x.files :: c.tier == Comparison.TierRank(Some(c.valid), f.depth, f.rate))
  {
    var c := CandidateOf(x);
    WorstFile(x.files, c.valid);
    hide MinTier, Comparison.TierRank;
  }

  lemma {:induction false} WorstFile(files: seq<File>, lossless: bool)
    ensures forall f | f in files :: MinTier(files, lossless) <= Comparison.TierRank(Some(lossless), f.depth, f.rate)
    ensures files != [] ==> exists f | f in files :: MinTier(files, lossless) == Comparison.TierRank(Some(lossless), f.depth, f.rate)
  {
    hide Comparison.TierRank;
    if files != [] {
      assert files == [files[0]] + files[1..] && files[0] in files;
      WorstFile(files[1..], lossless);
    }
  }
}
