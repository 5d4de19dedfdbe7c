/**
 Simulated energy deposits of one event, as the back-tracking service hands
 them to the calibration analyzer: a list of simulated channels, each holding
 its readout channel number and, per TDC time bucket, the energies of the
 deposits (IDEs) recorded in that bucket. The analyzer folds them into one
 accumulator per readout view (0 = U, 1 = V, 2 = Z); the functions here are
 the specification of that fold and the lemmas say what it means.
 */
module Deposits {

  /** One simulated channel: the readout channel and its TDC buckets in map
      order, each bucket the energies of its deposits in vector order. */
  datatype SimChannel = SimChannel(channel: int, buckets: seq<seq<real>>)

  /** Total of a sequence of deposit energies. */
  function Sum(energies: seq<real>): real
  {
    if |energies| == 0 then 0.0 else energies[0] + Sum(energies[1..])
  }

  /** Total energy deposited on one channel, over all of its buckets. */
  function ChannelEnergy(buckets: seq<seq<real>>): real
  {
    if |buckets| == 0 then 0.0 else Sum(buckets[0]) + ChannelEnergy(buckets[1..])
  }

  /** Energy deposited on the channels whose view is `plane`. */
  function PlaneDeposit(channels: seq<SimChannel>, view: int -> int, plane: int): real
  {
    if |channels| == 0 then 0.0
    else OnPlane(channels[0], view, plane) + PlaneDeposit(channels[1..], view, plane)
  }

  /** What one channel adds to the accumulator of `plane`. */
  function OnPlane(c: SimChannel, view: int -> int, plane: int): real
  {
    if view(c.channel) == plane then ChannelEnergy(c.buckets) else 0.0
  }

  /** Energy deposited on all channels, whatever their view. */
  function TotalEnergy(channels: seq<SimChannel>): real
  {
    if |channels| == 0 then 0.0 else ChannelEnergy(channels[0].buckets) + TotalEnergy(channels[1..])
  }

  /** Independent reference: all deposit energies of the channels on `plane`,
      flattened into one list in channel, bucket and deposit order. */
  function PlaneEnergies(channels: seq<SimChannel>, view: int -> int, plane: int): seq<real>
  {
    if |channels| == 0 then []
    else (if view(channels[0].channel) == plane then Flatten(channels[0].buckets) else [])
         + PlaneEnergies(channels[1..], view, plane)
  }

  function Flatten(buckets: seq<seq<real>>): seq<real>
  {
    if |buckets| == 0 then [] else buckets[0] + Flatten(buckets[1..])
  }

  predicate NonNegative(channels: seq<SimChannel>)
  {
    forall i, j, k :: 0 <= i < |channels| && 0 <= j < |channels[i].buckets| && 0 <= k < |channels[i].buckets[j]|
      ==> channels[i].buckets[j][k] >= 0.0
  }

  /** Summing is additive over concatenation. */
  lemma {:induction false} SumAppend(xs: seq<real>, ys: seq<real>)
    ensures Sum(xs + ys) == Sum(xs) + Sum(ys)
  {
    if |xs| == 0 {
      assert xs + ys == ys;
    } else {
      assert (xs + ys)[1..] == xs[1..] + ys;
      SumAppend(xs[1..], ys);
    }
  }

  lemma {:induction false} ChannelEnergyAppend(bs: seq<seq<real>>, cs: seq<seq<real>>)
    ensures ChannelEnergy(bs + cs) == ChannelEnergy(bs) + ChannelEnergy(cs)
  {
    if |bs| == 0 {
      assert bs + cs == cs;
    } else {
      assert (bs + cs)[1..] == bs[1..] + cs;
      ChannelEnergyAppend(bs[1..], cs);
    }
  }

  lemma {:induction false} PlaneDepositAppend(xs: seq<SimChannel>, ys: seq<SimChannel>, view: int -> int, plane: int)
    ensures PlaneDeposit(xs + ys, view, plane) == PlaneDeposit(xs, view, plane) + PlaneDeposit(ys, view, plane)
  {
    if |xs| == 0 {
      assert xs + ys == ys;
    } else {
      assert (xs + ys)[1..] == xs[1..] + ys;
      PlaneDepositAppend(xs[1..], ys, view, plane);
    }
  }

  /** One more deposit in a bucket adds exactly its energy (the innermost
      loop's step). */
  lemma SumStep(energies: seq<real>, k: nat)
    requires k < |energies|
    ensures Sum(energies[..k + 1]) == Sum(energies[..k]) + energies[k]
  {
    assert energies[..k + 1] == energies[..k] + [energies[k]];
    SumAppend(energies[..k], [energies[k]]);
  }

  /** One more bucket of a channel adds exactly that bucket's total (the
      middle loop's step). */
  lemma ChannelEnergyStep(buckets: seq<seq<real>>, k: nat)
    requires k < |buckets|
    ensures ChannelEnergy(buckets[..k + 1]) == ChannelEnergy(buckets[..k]) + Sum(buckets[k])
  {
    assert buckets[..k + 1] == buckets[..k] + [buckets[k]];
    ChannelEnergyAppend(buckets[..k], [buckets[k]]);
  }

  /** One more channel adds its energy to the accumulator of its own view and
      nothing to any other (the outer loop's step). */
  lemma PlaneDepositStep(channels: seq<SimChannel>, k: nat, view: int -> int, plane: int)
    requires k < |channels|
    ensures PlaneDeposit(channels[..k + 1], view, plane)
         == PlaneDeposit(channels[..k], view, plane)
            + (if view(channels[k].channel) == plane then ChannelEnergy(channels[k].buckets) else 0.0)
  {
    assert channels[..k + 1] == channels[..k] + [channels[k]];
    PlaneDepositAppend(channels[..k], [channels[k]], view, plane);
  }

  /** A channel whose view is not 0, 1 or 2 can be removed from the list
      without changing any of the three accumulators. */
  lemma UnknownViewIgnored(before: seq<SimChannel>, c: SimChannel, after: seq<SimChannel>, view: int -> int, plane: int)
    requires view(c.channel) !in {0, 1, 2}
    requires plane in {0, 1, 2}
    ensures PlaneDeposit(before + [c] + after, view, plane) == PlaneDeposit(before + after, view, plane)
  {
    PlaneDepositAppend(before + [c], after, view, plane);
    PlaneDepositAppend(before, [c], view, plane);
    PlaneDepositAppend(before, after, view, plane);
  }

  /** When every channel has view 0, 1 or 2, the three accumulators together
      hold all the deposited energy. */
  lemma {:induction false} PlanesPartitionEnergy(channels: seq<SimChannel>, view: int -> int)
    requires forall i :: 0 <= i < |channels| ==> view(channels[i].channel) in {0, 1, 2}
    ensures PlaneDeposit(channels, view, 0) + PlaneDeposit(channels, view, 1) + PlaneDeposit(channels, view, 2)
         == TotalEnergy(channels)
  {
    if |channels| > 0 {
      assert view(channels[0].channel) in {0, 1, 2};
      PlanesPartitionEnergy(channels[1..], view);
    }
  }

  lemma {:induction false} ChannelEnergyIsSumOfFlatten(buckets: seq<seq<real>>)
    ensures ChannelEnergy(buckets) == Sum(Flatten(buckets))
  {
    if |buckets| > 0 {
      ChannelEnergyIsSumOfFlatten(buckets[1..]);
      SumAppend(buckets[0], Flatten(buckets[1..]));
    }
  }

  /** Each accumulator is the sum of the filtered list of deposit energies. */
  lemma {:induction false} PlaneDepositIsFilteredSum(channels: seq<SimChannel>, view: int -> int, plane: int)
    ensures PlaneDeposit(channels, view, plane) == Sum(PlaneEnergies(channels, view, plane))
  {
    if |channels| > 0 {
      var head := if view(channels[0].channel) == plane then Flatten(channels[0].buckets) else [];
      PlaneDepositIsFilteredSum(channels[1..], view, plane);
      ChannelEnergyIsSumOfFlatten(channels[0].buckets);
      SumAppend(head, PlaneEnergies(channels[1..], view, plane));
    }
  }

  lemma {:induction false} SumNonNegative(energies: seq<real>)
    requires forall k :: 0 <= k < |energies| ==> energies[k] >= 0.0
    ensures Sum(energies) >= 0.0
  {
    if |energies| > 0 {
      SumNonNegative(energies[1..]);
    }
  }

  lemma {:induction false} ChannelEnergyNonNegative(buckets: seq<seq<real>>)
    requires forall j, k :: 0 <= j < |buckets| && 0 <= k < |buckets[j]| ==> buckets[j][k] >= 0.0
    ensures ChannelEnergy(buckets) >= 0.0
  {
    if |buckets| > 0 {
      SumNonNegative(buckets[0]);
      ChannelEnergyNonNegative(buckets[1..]);
    }
  }

  lemma {:induction false} PlaneDepositNonNegative(channels: seq<SimChannel>, view: int -> int, plane: int)
    requires NonNegative(channels)
    ensures PlaneDeposit(channels, view, plane) >= 0.0
  {
    if |channels| > 0 {
      var first := channels[0].buckets;
      assert forall j, k :: 0 <= j < |first| && 0 <= k < |first[j]| ==> first[j][k] >= 0.0;
      ChannelEnergyNonNegative(channels[0].buckets);
      assert NonNegative(channels[1..]) by {
        forall i, j, k | 0 <= i < |channels[1..]| && 0 <= j < |channels[1..][i].buckets| && 0 <= k < |channels[1..][i].buckets[j]|
          ensures channels[1..][i].buckets[j][k] >= 0.0
        {
          assert channels[1..][i] == channels[i + 1];
        }
      }
      PlaneDepositNonNegative(channels[1..], view, plane);
    }
  }

  /** With non-negative deposit energies, an accumulator never decreases as
      more channels are folded in. */
  lemma PlaneDepositMonotone(channels: seq<SimChannel>, j: nat, k: nat, view: int -> int, plane: int)
    requires NonNegative(channels)
    requires j <= k <= |channels|
    ensures PlaneDeposit(channels[..j], view, plane) <= PlaneDeposit(channels[..k], view, plane)
  {
    assert channels[..k] == channels[..j] + channels[j..k];
    PlaneDepositAppend(channels[..j], channels[j..k], view, plane);
    assert NonNegative(channels[j..k]) by {
      forall i, b, e | 0 <= i < |channels[j..k]| && 0 <= b < |channels[j..k][i].buckets| && 0 <= e < |channels[j..k][i].buckets[b]|
        ensures channels[j..k][i].buckets[b][e] >= 0.0
      {
        assert channels[j..k][i] == channels[j + i];
      }
    }
    PlaneDepositNonNegative(channels[j..k], view, plane);
  }

  /** The deposit example: a view-0 channel with deposits 1.5 and 2.5 and a
      view-1 channel with one deposit of 4.0 give U = 4.0, V = 4.0, Z = 0.0. */
  lemma DepositExample(view: int -> int)
    requires view(1) == 0 && view(2) == 1
    ensures var channels := [SimChannel(1, [[1.5], [2.5]]), SimChannel(2, [[4.0]])];
            PlaneDeposit(channels, view, 0) == 4.0
            && PlaneDeposit(channels, view, 1) == 4.0
            && PlaneDeposit(channels, view, 2) == 0.0
  {
    var channels := [SimChannel(1, [[1.5], [2.5]]), SimChannel(2, [[4.0]])];
    assert channels[1..] == [SimChannel(2, [[4.0]])];
    assert channels[1..][1..] == [];
  }
}
