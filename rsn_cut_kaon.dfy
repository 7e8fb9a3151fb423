/**
 * The kaon selection cut of the 2010 pp phi analysis
 * (AliRsnCutKaonForPhi2010PP.h): its four PID parameters, its embedded
 * track-quality cut and the TOF-match test on a track's status word.
 *
 * The status word is the 64-bit ULong_t returned by AliVTrack::GetStatus.
 * The two status bits are the values AliESDtrack defines; AliESDtrack.h is
 * not part of this model.
 */
module RsnCutKaon {

  datatype Option<T> = None | Some(value: T)

  /** AliESDtrack::kTOFout: the track was propagated out to the TOF */
  const TOFout: bv64 := 0x2000
  /** AliESDtrack::kTIME: the track has an integrated time-of-flight */
  const TIME: bv64 := 0x8000_0000

  /** The part of an AliVTrack the cut looks at */
  datatype Track = Track(status: bv64)

  /** Whether every bit of `mask` is set in `status` */
  predicate HasAll(status: bv64, mask: bv64)
  {
    status & mask == mask
  }

  /**
   * MatchTOF: false for a null track; otherwise true when both the kTOFout
   * and the kTIME bit are set.  It is a pure test and changes no field of
   * the cut.
   */
  function MatchTOF(track: Option<Track>): (matched: bool)
    ensures track.None? ==> !matched
    ensures track.Some? ==> (matched <==> HasAll(track.value.status, TOFout | TIME))
  {
    match track
    case None => false
    case Some(t) =>
      var isTOFout := t.status & TOFout != 0;
      var isTIME := t.status & TIME != 0;
      isTOFout && isTIME
  }

  /** Setting more status bits never undoes a TOF match */
  lemma MatchTOFMonotone(status: bv64, extra: bv64)
    requires MatchTOF(Some(Track(status)))
    ensures MatchTOF(Some(Track(status | extra)))
  {
    assert (status | extra) & (TOFout | TIME) == (status & (TOFout | TIME)) | (extra & (TOFout | TIME));
  }

  /** Clearing either of the two bits undoes the match, whatever else is set */
  lemma MatchTOFNeedsBoth(status: bv64)
    ensures !MatchTOF(Some(Track(status & !TOFout)))
    ensures !MatchTOF(Some(Track(status & !TIME)))
  {
    assert (status & !TOFout) & TOFout == 0;
    assert (status & !TIME) & TIME == 0;
  }

  /** The two bits alone make a match */
  lemma MatchTOFMinimal()
    ensures MatchTOF(Some(Track(TOFout | TIME)))
    ensures !MatchTOF(Some(Track(TOFout))) && !MatchTOF(Some(Track(TIME)))
  {
  }

  /** An AliRsnCutTrackQuality; its own cuts are not part of this model */
  class TrackQualityCut {
    constructor ()
    {
    }
  }

  class KaonCut {
    /** fNSigmaTPCLow: TPC n-sigma cut below the momentum limit */
    var nSigmaTPCLow: real
    /** fNSigmaTPCHigh: TPC n-sigma cut above the momentum limit */
    var nSigmaTPCHigh: real
    /** fLimitTPC: the TPC momentum limit */
    var limitTPC: real
    /** fNSigmaTOF: the single TOF n-sigma cut */
    var nSigmaTOF: real
    /** fCutQuality: an embedded member, so always the same object */
    const cutQuality: TrackQualityCut

    /**
     * The cut with the given parameters and its own quality cut; the
     * defaults of the out-of-line constructor are not part of this model.
     */
    constructor (tpcLow: real, tpcHigh: real, tpcLimit: real, tof: real)
      ensures nSigmaTPCLow == tpcLow && nSigmaTPCHigh == tpcHigh && limitTPC == tpcLimit && nSigmaTOF == tof
      ensures fresh(cutQuality)
    {
      nSigmaTPCLow := tpcLow;
      nSigmaTPCHigh := tpcHigh;
      limitTPC := tpcLimit;
      nSigmaTOF := tof;
      cutQuality := new TrackQualityCut();
    }

    method SetTPCNSigmaLow(v: real)
      modifies this`nSigmaTPCLow
      ensures nSigmaTPCLow == v
    {
      nSigmaTPCLow := v;
    }

    method SetTPCNSigmaHigh(v: real)
      modifies this`nSigmaTPCHigh
      ensures nSigmaTPCHigh == v
    {
      nSigmaTPCHigh := v;
    }

    method SetTPCLimit(v: real)
      modifies this`limitTPC
      ensures limitTPC == v
    {
      limitTPC := v;
    }

    method SetTOFNSigma(v: real)
      modifies this`nSigmaTOF
      ensures nSigmaTOF == v
    {
      nSigmaTOF := v;
    }

    /** CutQuality hands out the embedded quality cut: never null, the same object every time */
    function CutQuality(): (q: TrackQualityCut)
      ensures q == cutQuality
    {
      cutQuality
    }
  }
}
