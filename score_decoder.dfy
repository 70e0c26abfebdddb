/** The score read-out of the bin-packing page: a total score of the multi-container
    annealer is split back into the number of blocks left unpacked, the number of
    containers used and what remains of the heights. */
module ScoreDecoder {
  import opened MultiContainer

  /** The decoded parts of a score: unpacked blocks, containers used, the rest. */
  datatype Parts = Parts(nUnpacked: int, nContainers: int, containerScore: real)

  /** The score encoded from its parts, as the annealer sums it. */
  function Encode(p: Parts): real {
    BlockUnstackedPenalty * p.nUnpacked as real + ContainerUsedPenalty * p.nContainers as real + p.containerScore
  }

  /** The parts that a score can be decoded into: a count of penalties of each kind
      and a rest below the container penalty, the containers' penalties together
      below one unstacked-block penalty. */
  predicate Decodable(p: Parts) {
    && p.nContainers >= 0
    && 0.0 <= p.containerScore < ContainerUsedPenalty
    && ContainerUsedPenalty * p.nContainers as real + p.containerScore < BlockUnstackedPenalty
  }

  /** `score_to_n_unpacked_and_n_containers_and_container_score`: floor-divide by the
      unstacked-block penalty, take off that many penalties, floor-divide the rest by
      the container penalty and take those off too. Whatever the score, the parts add
      back up to it and form decodable parts. */
  function Decode(score: real): (r: Parts)
    ensures Encode(r) == score && Decodable(r)
    ensures score >= 0.0 ==> r.nUnpacked >= 0
  {
    var nUnpacked := (score / BlockUnstackedPenalty).Floor;
    var rest := score - BlockUnstackedPenalty * nUnpacked as real;
    var nContainers := (rest / ContainerUsedPenalty).Floor;
    assert nContainers as real < 100000.0;
    Parts(nUnpacked, nContainers, rest - ContainerUsedPenalty * nContainers as real)
  }

  /** The floor of a real is the one integer k with k <= x < k + 1. */
  lemma FloorUnique(x: real, k: int)
    requires k as real <= x < k as real + 1.0
    ensures x.Floor == k
  {
  }

  /** Decoding undoes the annealer's encoding whenever the heights and the
      containers' penalties stay below one unstacked-block penalty. */
  lemma DecodeEncode(p: Parts)
    requires Decodable(p)
    ensures Decode(Encode(p)) == p
  {
    var score := Encode(p);
    var low := ContainerUsedPenalty * p.nContainers as real + p.containerScore;
    assert score / BlockUnstackedPenalty == p.nUnpacked as real + low / BlockUnstackedPenalty;
    FloorUnique(score / BlockUnstackedPenalty, p.nUnpacked);
    var rest := score - BlockUnstackedPenalty * p.nUnpacked as real;
    assert rest / ContainerUsedPenalty == p.nContainers as real + p.containerScore / ContainerUsedPenalty;
    FloorUnique(rest / ContainerUsedPenalty, p.nContainers);
  }
}
