/** The dice of Super Six, shared by every version of the recurrence.
    A throw is one of three outcomes for a lid holding `lid` sticks in its five pits:
    a six (probability 1/6), a free pit ((5 - lid)/6) or an occupied pit (lid/6).
 */
module Dice {

  /** Number of pits in the lid (hole 6 is not a pit: it swallows sticks). */
  const PITS := 5

  /** Probability of hitting a free pit with `lid` sticks already in the lid. */
  function FreeWeight(lid: int): real {
    (5.0 - lid as real) / 6.0
  }

  /** Probability of throwing a six. */
  function SixWeight(): real {
    1.0 / 6.0
  }

  /** Probability of hitting an occupied pit with `lid` sticks in the lid. */
  function OccupiedWeight(lid: int): real {
    lid as real / 6.0
  }

  /** The continue value as one weighted sum of the three outcomes' values, with the
      weights written out for each lid count (`MixIsWeightedSum` ties it to the weights above). */
  function Mix(lid: int, free: real, six: real, occupied: real): real
    requires 0 <= lid <= PITS
  {
    if lid == 0 then (5.0 / 6.0) * free + (1.0 / 6.0) * six
    else if lid == 1 then (4.0 / 6.0) * free + (1.0 / 6.0) * six + (1.0 / 6.0) * occupied
    else if lid == 2 then (3.0 / 6.0) * free + (1.0 / 6.0) * six + (2.0 / 6.0) * occupied
    else if lid == 3 then (2.0 / 6.0) * free + (1.0 / 6.0) * six + (3.0 / 6.0) * occupied
    else if lid == 4 then (1.0 / 6.0) * free + (1.0 / 6.0) * six + (4.0 / 6.0) * occupied
    else (1.0 / 6.0) * six + (5.0 / 6.0) * occupied
  }

  /** Each case of `Mix` is the sum of the outcomes' values weighted by their probabilities. */
  lemma MixIsWeightedSum(lid: int, free: real, six: real, occupied: real)
    requires 0 <= lid <= PITS
    ensures Mix(lid, free, six, occupied) ==
            FreeWeight(lid) * free + SixWeight() * six + OccupiedWeight(lid) * occupied
  {
    Weights(lid);
  }

  /** The three outcomes form a probability distribution for every lid count. */
  lemma WeightsFormDistribution(lid: int)
    requires 0 <= lid <= PITS
    ensures FreeWeight(lid) >= 0.0 && SixWeight() > 0.0 && OccupiedWeight(lid) >= 0.0
    ensures FreeWeight(lid) + SixWeight() + OccupiedWeight(lid) == 1.0
  {
  }

  /** An outcome of weight 0 may be read as anything: two sums that differ only in such an
      outcome's value are equal. */
  lemma MixIgnoresImpossible(lid: int, free: real, six: real, occupied: real, free': real, occupied': real)
    requires 0 <= lid <= PITS
    requires lid < PITS ==> free == free'
    requires lid > 0 ==> occupied == occupied'
    ensures Mix(lid, free, six, occupied) == Mix(lid, free', six, occupied')
  {
  }

  /** The weights written out as literals, one lid count at a time. */
  lemma Weights(lid: int)
    requires 0 <= lid <= PITS
    ensures lid == 0 ==> FreeWeight(lid) == 5.0 / 6.0 && OccupiedWeight(lid) == 0.0
    ensures lid == 1 ==> FreeWeight(lid) == 4.0 / 6.0 && OccupiedWeight(lid) == 1.0 / 6.0
    ensures lid == 2 ==> FreeWeight(lid) == 3.0 / 6.0 && OccupiedWeight(lid) == 2.0 / 6.0
    ensures lid == 3 ==> FreeWeight(lid) == 2.0 / 6.0 && OccupiedWeight(lid) == 3.0 / 6.0
    ensures lid == 4 ==> FreeWeight(lid) == 1.0 / 6.0 && OccupiedWeight(lid) == 4.0 / 6.0
    ensures lid == 5 ==> FreeWeight(lid) == 0.0 && OccupiedWeight(lid) == 5.0 / 6.0
  {
  }

  /** A weighted sum of values in [lo, hi] lies in [lo, hi]. */
  lemma MixWithin(lid: int, free: real, six: real, occupied: real, lo: real, hi: real)
    requires 0 <= lid <= PITS
    requires lo <= free <= hi && lo <= six <= hi && lo <= occupied <= hi
    ensures lo <= Mix(lid, free, six, occupied) <= hi
  {
  }

  /** The weighted sum is monotone in each outcome's value. */
  lemma MixMonotone(lid: int, free: real, six: real, occupied: real,
                    free': real, six': real, occupied': real)
    requires 0 <= lid <= PITS
    requires free <= free' && six <= six' && occupied <= occupied'
    ensures Mix(lid, free, six, occupied) <= Mix(lid, free', six', occupied')
  {
  }
}
