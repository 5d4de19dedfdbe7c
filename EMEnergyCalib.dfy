/**
 The EM shower energy calibration analyzer (namespace emshower). Once per
 event it clears its output row, copies up to MaxHits reconstructed hits into
 seven parallel fixed-capacity buffers together with the ID of each hit's
 first associated cluster, records the true hit count and the energy of the
 primary simulated particle, folds the simulated energy deposits into one
 accumulator per readout view, and appends the row to its output tree.

 The host framework's event data, back-tracking and geometry services are
 parameters: an optional hit list, a cluster association given as a validity
 flag plus per-hit cluster IDs, the energies of the simulated primaries, the
 simulated channels and a channel-to-view function.

 Each step of the analyzer is a method on the class; each is specified by a
 pure function from the old row to the new one (ResetRow, WithHits,
 WithDeposits), and what the source promises is stated about those.
 */
module EmShower {
  import opened Deposits

  /** Capacity of every per-hit buffer. */
  const MaxHits: nat := 10000

  datatype Option<T> = None | Some(value: T)

  /** The fields of a reconstructed hit that the analyzer copies. */
  datatype Hit = Hit(tpc: int, plane: int, wire: int, channel: int, peakTime: real, integral: real)

  /** The hit-to-clusters association: whether it could be built, and for each
      hit the IDs of its associated clusters in the association's order. */
  datatype ClusterAssn = ClusterAssn(valid: bool, clusterIds: seq<seq<int>>)

  /** The values held in slot i of the seven per-hit buffers. */
  datatype HitSlot = HitSlot(tpc: int, plane: int, wire: int, channel: int,
                             peakT: real, charge: real, clusterId: int)

  /** The analyzer's row: the event scalars and the seven per-hit buffers. */
  datatype Row = Row(trueEnergy: real, depositU: real, depositV: real, depositZ: real, nhits: int,
                     hitTpc: seq<int>, hitPlane: seq<int>, hitWire: seq<int>, hitChannel: seq<int>,
                     hitPeakT: seq<real>, hitCharge: seq<real>, hitClusterId: seq<int>)

  const ZeroSlot := HitSlot(0, 0, 0, 0, 0.0, 0.0, 0)

  /** Number of buffer slots that n hits populate. */
  function Populated(n: nat): (k: nat)
    ensures k <= n && k <= MaxHits
    ensures k == n || k == MaxHits
  {
    if n < MaxHits then n else MaxHits
  }

  /** The hits of the event; an absent collection is an empty one. */
  function HitsOrEmpty(hits: Option<seq<Hit>>): seq<Hit>
  {
    if hits.Some? then hits.value else []
  }

  /** The cluster ID recorded for a hit with these associated clusters. */
  function FirstClusterId(ids: seq<int>): int
  {
    if |ids| != 0 then ids[0] else -1
  }

  /** The association answers for every slot that n hits populate. */
  predicate AssnCovers(assn: ClusterAssn, n: nat)
  {
    assn.valid ==> Populated(n) <= |assn.clusterIds|
  }

  /** Slot contents after hit h was copied in with cluster ID c. */
  function SlotOf(h: Hit, c: int): HitSlot
  {
    HitSlot(h.tpc, h.plane, h.wire, h.channel, h.peakTime, h.integral, c)
  }

  /** Every buffer of the row has the full capacity. */
  predicate FullWidth(r: Row)
  {
    && |r.hitTpc| == MaxHits && |r.hitPlane| == MaxHits && |r.hitWire| == MaxHits
    && |r.hitChannel| == MaxHits && |r.hitPeakT| == MaxHits && |r.hitCharge| == MaxHits
    && |r.hitClusterId| == MaxHits
  }

  function SlotAt(r: Row, i: nat): HitSlot
    requires FullWidth(r) && i < MaxHits
  {
    HitSlot(r.hitTpc[i], r.hitPlane[i], r.hitWire[i], r.hitChannel[i],
            r.hitPeakT[i], r.hitCharge[i], r.hitClusterId[i])
  }

  /** The row after reset: every scalar and every slot is zero. */
  function ResetRow(): (r: Row)
    ensures FullWidth(r)
    ensures r.trueEnergy == 0.0 && r.depositU == 0.0 && r.depositV == 0.0 && r.depositZ == 0.0
    ensures r.nhits == 0
    ensures forall i :: 0 <= i < MaxHits ==> SlotAt(r, i) == ZeroSlot
  {
    var zeros := seq(MaxHits, _ => 0);
    var realZeros := seq(MaxHits, _ => 0.0);
    Row(0.0, 0.0, 0.0, 0.0, 0, zeros, zeros, zeros, zeros, realZeros, realZeros, zeros)
  }

  /** One iteration of the hit loop below the capacity: hit h goes into slot i,
      and its cluster ID too when the association is valid. */
  function StoreHit(r: Row, i: nat, h: Hit, assn: ClusterAssn): Row
    requires FullWidth(r) && i < MaxHits && (assn.valid ==> i < |assn.clusterIds|)
  {
    r.(hitTpc := r.hitTpc[i := h.tpc], hitPlane := r.hitPlane[i := h.plane],
       hitWire := r.hitWire[i := h.wire], hitChannel := r.hitChannel[i := h.channel],
       hitPeakT := r.hitPeakT[i := h.peakTime], hitCharge := r.hitCharge[i := h.integral],
       hitClusterId := if assn.valid then r.hitClusterId[i := FirstClusterId(assn.clusterIds[i])]
                       else r.hitClusterId)
  }

  /** The row with its first n slots filled from `hits`. */
  function FillSlots(r: Row, hits: seq<Hit>, assn: ClusterAssn, n: nat): Row
    requires FullWidth(r) && n <= MaxHits && n <= |hits| && (assn.valid ==> n <= |assn.clusterIds|)
  {
    r.(hitTpc := seq(MaxHits, i requires 0 <= i < MaxHits => if i < n then hits[i].tpc else r.hitTpc[i]),
       hitPlane := seq(MaxHits, i requires 0 <= i < MaxHits => if i < n then hits[i].plane else r.hitPlane[i]),
       hitWire := seq(MaxHits, i requires 0 <= i < MaxHits => if i < n then hits[i].wire else r.hitWire[i]),
       hitChannel := seq(MaxHits, i requires 0 <= i < MaxHits => if i < n then hits[i].channel else r.hitChannel[i]),
       hitPeakT := seq(MaxHits, i requires 0 <= i < MaxHits => if i < n then hits[i].peakTime else r.hitPeakT[i]),
       hitCharge := seq(MaxHits, i requires 0 <= i < MaxHits => if i < n then hits[i].integral else r.hitCharge[i]),
       hitClusterId := seq(MaxHits, i requires 0 <= i < MaxHits =>
         if i < n && assn.valid then FirstClusterId(assn.clusterIds[i]) else r.hitClusterId[i]))
  }

  /** Filling no slot leaves the row as it is. */
  lemma FillSlotsNone(r: Row, hits: seq<Hit>, assn: ClusterAssn)
    requires FullWidth(r)
    ensures FillSlots(r, hits, assn, 0) == r
  {
    var f := FillSlots(r, hits, assn, 0);
    assert f.hitTpc == r.hitTpc && f.hitPlane == r.hitPlane && f.hitWire == r.hitWire;
    assert f.hitChannel == r.hitChannel && f.hitPeakT == r.hitPeakT && f.hitCharge == r.hitCharge;
    assert f.hitClusterId == r.hitClusterId;
  }

  /** Filling one slot more is one more iteration of the hit loop. */
  lemma FillSlotsStep(r: Row, hits: seq<Hit>, assn: ClusterAssn, n: nat)
    requires FullWidth(r) && n < MaxHits && n < |hits| && (assn.valid ==> n < |assn.clusterIds|)
    ensures FillSlots(r, hits, assn, n + 1) == StoreHit(FillSlots(r, hits, assn, n), n, hits[n], assn)
  {
    var f, g := FillSlots(r, hits, assn, n + 1), StoreHit(FillSlots(r, hits, assn, n), n, hits[n], assn);
    assert f.hitTpc == g.hitTpc && f.hitPlane == g.hitPlane && f.hitWire == g.hitWire;
    assert f.hitChannel == g.hitChannel && f.hitPeakT == g.hitPeakT && f.hitCharge == g.hitCharge;
    assert f.hitClusterId == g.hitClusterId;
  }

  /** The row after the hit loop over `hits`: slot i below the capacity holds
      hit i, its cluster ID is written only when the association is valid (the
      first associated cluster's ID, or -1 for none), every other slot and
      every other scalar is unchanged, and the count is the true number of hits. */
  function WithHits(r: Row, hits: seq<Hit>, assn: ClusterAssn): (r': Row)
    requires FullWidth(r) && AssnCovers(assn, |hits|)
    ensures FullWidth(r')
    ensures r'.nhits == |hits|
    ensures r'.trueEnergy == r.trueEnergy
    ensures r'.depositU == r.depositU && r'.depositV == r.depositV && r'.depositZ == r.depositZ
    ensures forall i :: 0 <= i < Populated(|hits|) ==>
      SlotAt(r', i) == SlotOf(hits[i], if assn.valid then FirstClusterId(assn.clusterIds[i]) else r.hitClusterId[i])
    ensures forall i :: Populated(|hits|) <= i < MaxHits ==> SlotAt(r', i) == SlotAt(r, i)
  {
    FillSlots(r, hits, assn, Populated(|hits|)).(nhits := |hits|)
  }

  /** The row after the deposit loops. */
  function WithDeposits(r: Row, channels: seq<SimChannel>, view: int -> int): Row
  {
    r.(depositU := r.depositU + PlaneDeposit(channels, view, 0),
       depositV := r.depositV + PlaneDeposit(channels, view, 1),
       depositZ := r.depositZ + PlaneDeposit(channels, view, 2))
  }

  /** The row one event leaves, a function of that event's inputs alone. */
  function EventRow(hits: Option<seq<Hit>>, assn: ClusterAssn, primaryEnergy: real,
                    channels: seq<SimChannel>, view: int -> int): (r: Row)
    requires AssnCovers(assn, |HitsOrEmpty(hits)|)
    ensures FullWidth(r)
    ensures r.nhits == |HitsOrEmpty(hits)|
    ensures r.trueEnergy == primaryEnergy
    ensures r.depositU == PlaneDeposit(channels, view, 0)
    ensures r.depositV == PlaneDeposit(channels, view, 1)
    ensures r.depositZ == PlaneDeposit(channels, view, 2)
    ensures forall i :: 0 <= i < Populated(|HitsOrEmpty(hits)|) ==>
      SlotAt(r, i) == SlotOf(HitsOrEmpty(hits)[i], if assn.valid then FirstClusterId(assn.clusterIds[i]) else 0)
    ensures forall i :: |HitsOrEmpty(hits)| <= i < MaxHits ==> SlotAt(r, i) == ZeroSlot
  {
    var filled := WithHits(ResetRow(), HitsOrEmpty(hits), assn);
    WithDeposits(filled.(trueEnergy := primaryEnergy), channels, view)
  }

  /** What a variable-length branch "hit_x[NHits]" reads from its buffer: the
      first nhits slots, which exist only while nhits is within the buffer. */
  function ColumnAsWritten<T>(buffer: seq<T>, nhits: int): (column: seq<T>)
    requires 0 <= nhits <= |buffer|
    ensures |column| == nhits
    ensures forall i :: 0 <= i < nhits ==> column[i] == buffer[i]
  {
    buffer[..nhits]
  }

  /** The row appended to the tree: the scalars, and of every buffer the
      populated slots only, so that no column reaches past the capacity. */
  function Recorded(r: Row): (rec: Row)
    requires FullWidth(r) && r.nhits >= 0
    ensures rec.trueEnergy == r.trueEnergy && rec.nhits == r.nhits
    ensures rec.depositU == r.depositU && rec.depositV == r.depositV && rec.depositZ == r.depositZ
    ensures r.nhits <= MaxHits ==> |rec.hitTpc| == r.nhits
    ensures r.nhits > MaxHits ==> |rec.hitTpc| == MaxHits
    ensures rec.hitTpc == r.hitTpc[..Populated(r.nhits)]
    ensures rec.hitPlane == r.hitPlane[..Populated(r.nhits)]
    ensures rec.hitWire == r.hitWire[..Populated(r.nhits)]
    ensures rec.hitChannel == r.hitChannel[..Populated(r.nhits)]
    ensures rec.hitPeakT == r.hitPeakT[..Populated(r.nhits)]
    ensures rec.hitCharge == r.hitCharge[..Populated(r.nhits)]
    ensures rec.hitClusterId == r.hitClusterId[..Populated(r.nhits)]
  {
    var k := Populated(r.nhits);
    r.(hitTpc := r.hitTpc[..k], hitPlane := r.hitPlane[..k], hitWire := r.hitWire[..k],
       hitChannel := r.hitChannel[..k], hitPeakT := r.hitPeakT[..k], hitCharge := r.hitCharge[..k],
       hitClusterId := r.hitClusterId[..k])
  }

  /** The branches as written and the recorded row agree exactly while the
      count fits the capacity; once it exceeds the capacity, no buffer can
      form its column as written, while the recorded row stops at MaxHits. */
  lemma OverflowBreaksColumnAsWritten(r: Row)
    requires FullWidth(r) && r.nhits >= 0
    ensures (0 <= r.nhits <= |r.hitTpc|) <==> r.nhits <= MaxHits
    ensures (0 <= r.nhits <= |r.hitPlane|) <==> r.nhits <= MaxHits
    ensures (0 <= r.nhits <= |r.hitWire|) <==> r.nhits <= MaxHits
    ensures (0 <= r.nhits <= |r.hitChannel|) <==> r.nhits <= MaxHits
    ensures (0 <= r.nhits <= |r.hitPeakT|) <==> r.nhits <= MaxHits
    ensures (0 <= r.nhits <= |r.hitCharge|) <==> r.nhits <= MaxHits
    ensures (0 <= r.nhits <= |r.hitClusterId|) <==> r.nhits <= MaxHits
    ensures r.nhits <= MaxHits ==>
      && Recorded(r).hitTpc == ColumnAsWritten(r.hitTpc, r.nhits)
      && Recorded(r).hitPlane == ColumnAsWritten(r.hitPlane, r.nhits)
      && Recorded(r).hitWire == ColumnAsWritten(r.hitWire, r.nhits)
      && Recorded(r).hitChannel == ColumnAsWritten(r.hitChannel, r.nhits)
      && Recorded(r).hitPeakT == ColumnAsWritten(r.hitPeakT, r.nhits)
      && Recorded(r).hitCharge == ColumnAsWritten(r.hitCharge, r.nhits)
      && Recorded(r).hitClusterId == ColumnAsWritten(r.hitClusterId, r.nhits)
    ensures r.nhits > MaxHits ==> |Recorded(r).hitTpc| == MaxHits < r.nhits
  {
  }

  class EMEnergyCalib {
    var trueEnergy: real
    var depositU: real
    var depositV: real
    var depositZ: real
    var nhits: int
    const hitTpc: array<int>
    const hitPlane: array<int>
    const hitWire: array<int>
    const hitChannel: array<int>
    const hitPeakT: array<real>
    const hitCharge: array<real>
    const hitClusterId: array<int>

    /** The rows appended to the output tree so far. */
    ghost var Tree: seq<Row>

    ghost predicate Valid()
    {
      && hitTpc.Length == MaxHits && hitPlane.Length == MaxHits && hitWire.Length == MaxHits
      && hitChannel.Length == MaxHits && hitPeakT.Length == MaxHits && hitCharge.Length == MaxHits
      && hitClusterId.Length == MaxHits
      && hitTpc != hitPlane && hitTpc != hitWire && hitTpc != hitChannel && hitTpc != hitClusterId
      && hitPlane != hitWire && hitPlane != hitChannel && hitPlane != hitClusterId
      && hitWire != hitChannel && hitWire != hitClusterId
      && hitChannel != hitClusterId
      && hitPeakT != hitCharge
    }

    /** The row buffer as a value. */
    ghost function Current(): (r: Row)
      requires Valid()
      reads this`trueEnergy, this`depositU, this`depositV, this`depositZ, this`nhits
      reads hitTpc, hitPlane, hitWire, hitChannel, hitPeakT, hitCharge, hitClusterId
      ensures FullWidth(r)
    {
      Row(trueEnergy, depositU, depositV, depositZ, nhits,
          hitTpc[..], hitPlane[..], hitWire[..], hitChannel[..],
          hitPeakT[..], hitCharge[..], hitClusterId[..])
    }

    /** Allocates the buffers; their contents are undefined until Reset. */
    constructor ()
      ensures Valid() && Tree == []
      ensures fresh(hitTpc) && fresh(hitPlane) && fresh(hitWire) && fresh(hitChannel)
      ensures fresh(hitPeakT) && fresh(hitCharge) && fresh(hitClusterId)
    {
      hitTpc := new int[MaxHits];
      hitPlane := new int[MaxHits];
      hitWire := new int[MaxHits];
      hitChannel := new int[MaxHits];
      hitPeakT := new real[MaxHits];
      hitCharge := new real[MaxHits];
      hitClusterId := new int[MaxHits];
      Tree := [];
    }

    /** Zeroes every scalar of the row and every slot of every buffer. */
    method Reset()
      requires Valid()
      modifies this`trueEnergy, this`depositU, this`depositV, this`depositZ, this`nhits
      modifies hitTpc, hitPlane, hitWire, hitChannel, hitPeakT, hitCharge, hitClusterId
      ensures Current() == ResetRow()
    {
      trueEnergy := 0.0;
      depositU := 0.0;
      depositV := 0.0;
      depositZ := 0.0;
      nhits := 0;
      for hit := 0 to MaxHits
        modifies hitTpc, hitPlane, hitWire, hitChannel, hitPeakT, hitCharge, hitClusterId
        invariant forall i :: 0 <= i < hit ==> hitTpc[i] == 0 && hitPlane[i] == 0 && hitWire[i] == 0
        invariant forall i :: 0 <= i < hit ==> hitChannel[i] == 0 && hitClusterId[i] == 0
        invariant forall i :: 0 <= i < hit ==> hitPeakT[i] == 0.0 && hitCharge[i] == 0.0
      {
        hitTpc[hit] := 0;
        hitPlane[hit] := 0;
        hitWire[hit] := 0;
        hitChannel[hit] := 0;
        hitPeakT[hit] := 0.0;
        hitCharge[hit] := 0.0;
        hitClusterId[hit] := 0;
      }
      var r := ResetRow();
      assert hitTpc[..] == r.hitTpc && hitPlane[..] == r.hitPlane && hitWire[..] == r.hitWire;
      assert hitChannel[..] == r.hitChannel && hitClusterId[..] == r.hitClusterId;
      assert hitPeakT[..] == r.hitPeakT && hitCharge[..] == r.hitCharge;
    }

    /** The hit loop: copies hit i into slot i for every i below the capacity,
        sets its cluster ID only when the association is valid, and records the
        true number of hits. */
    method FillHits(hits: seq<Hit>, assn: ClusterAssn)
      requires Valid() && AssnCovers(assn, |hits|)
      modifies this`nhits, hitTpc, hitPlane, hitWire, hitChannel, hitPeakT, hitCharge, hitClusterId
      ensures Current() == WithHits(old(Current()), hits, assn)
    {
      ghost var before := Current();
      FillSlotsNone(before, hits, assn);
      for hitIt := 0 to |hits|
        modifies hitTpc, hitPlane, hitWire, hitChannel, hitPeakT, hitCharge, hitClusterId
        invariant Current() == FillSlots(before, hits, assn, Populated(hitIt))
      {
        if hitIt >= MaxHits {
          continue;
        }
        FillSlotsStep(before, hits, assn, hitIt);
        var hit := hits[hitIt];
        hitTpc[hitIt] := hit.tpc;
        hitPlane[hitIt] := hit.plane;
        hitWire[hitIt] := hit.wire;
        hitPeakT[hitIt] := hit.peakTime;
        hitCharge[hitIt] := hit.integral;
        hitChannel[hitIt] := hit.channel;
        if assn.valid {
          var clusters := assn.clusterIds[hitIt];
          if |clusters| != 0 {
            hitClusterId[hitIt] := clusters[0];
          } else {
            hitClusterId[hitIt] := -1;
          }
        }
      }
      nhits := |hits|;
    }

    /** The deposit loops: adds the energy of every deposit, over all buckets of
        all channels, to the accumulator of the channel's view; channels whose
        view is not 0, 1 or 2 add to none. */
    method AccumulateDeposits(simChannels: seq<SimChannel>, view: int -> int)
      requires Valid()
      modifies this`depositU, this`depositV, this`depositZ
      ensures Current() == WithDeposits(old(Current()), simChannels, view)
    {
      var channelIt := 0;
      while channelIt < |simChannels|
        invariant 0 <= channelIt <= |simChannels|
        invariant depositU == old(depositU) + PlaneDeposit(simChannels[..channelIt], view, 0)
        invariant depositV == old(depositV) + PlaneDeposit(simChannels[..channelIt], view, 1)
        invariant depositZ == old(depositZ) + PlaneDeposit(simChannels[..channelIt], view, 2)
      {
        var plane := view(simChannels[channelIt].channel);
        var tdcideMap := simChannels[channelIt].buckets;
        ghost var u0, v0, z0 := depositU, depositV, depositZ;
        var tdcIt := 0;
        while tdcIt < |tdcideMap|
          invariant 0 <= tdcIt <= |tdcideMap|
          invariant depositU == u0 + (if plane == 0 then ChannelEnergy(tdcideMap[..tdcIt]) else 0.0)
          invariant depositV == v0 + (if plane == 1 then ChannelEnergy(tdcideMap[..tdcIt]) else 0.0)
          invariant depositZ == z0 + (if plane == 2 then ChannelEnergy(tdcideMap[..tdcIt]) else 0.0)
        {
          var ideVec := tdcideMap[tdcIt];
          ghost var u1, v1, z1 := depositU, depositV, depositZ;
          var ideIt := 0;
          while ideIt < |ideVec|
            invariant 0 <= ideIt <= |ideVec|
            invariant depositU == u1 + (if plane == 0 then Sum(ideVec[..ideIt]) else 0.0)
            invariant depositV == v1 + (if plane == 1 then Sum(ideVec[..ideIt]) else 0.0)
            invariant depositZ == z1 + (if plane == 2 then Sum(ideVec[..ideIt]) else 0.0)
          {
            if plane == 0 {
              depositU := depositU + ideVec[ideIt];
            } else if plane == 1 {
              depositV := depositV + ideVec[ideIt];
            } else if plane == 2 {
              depositZ := depositZ + ideVec[ideIt];
            }
            SumStep(ideVec, ideIt);
            ideIt := ideIt + 1;
          }
          assert ideVec[..ideIt] == ideVec;
          ChannelEnergyStep(tdcideMap, tdcIt);
          tdcIt := tdcIt + 1;
        }
        assert tdcideMap[..tdcIt] == tdcideMap;
        PlaneDepositStep(simChannels, channelIt, view, 0);
        PlaneDepositStep(simChannels, channelIt, view, 1);
        PlaneDepositStep(simChannels, channelIt, view, 2);
        channelIt := channelIt + 1;
      }
      assert simChannels[..channelIt] == simChannels;
    }

    /** Processes one event and appends its row to the tree. Nothing of the
        previous event survives: the new row is a function of the inputs. */
    method Analyze(hits: Option<seq<Hit>>, assn: ClusterAssn, primaryEnergies: seq<real>,
                   simChannels: seq<SimChannel>, view: int -> int)
      requires Valid()
      requires AssnCovers(assn, |HitsOrEmpty(hits)|)
      requires |primaryEnergies| > 0
      modifies this, hitTpc, hitPlane, hitWire, hitChannel, hitPeakT, hitCharge, hitClusterId
      ensures Current() == EventRow(hits, assn, primaryEnergies[0], simChannels, view)
      ensures Tree == old(Tree) + [Recorded(Current())]
    {
      Reset();
      FillHits(HitsOrEmpty(hits), assn);
      trueEnergy := primaryEnergies[0];
      AccumulateDeposits(simChannels, view);
      Fill();
    }

    /** Appends the current row to the output tree. */
    method Fill()
      requires Valid() && nhits >= 0
      modifies this`Tree
      ensures Tree == old(Tree) + [Recorded(Current())]
    {
      Tree := Tree + [Recorded(Current())];
    }
  }

  /** The end-to-end event: three hits on planes 0, 1 and 2, the first one in
      cluster 42, the others unclustered. */
  method EndToEndScenario(view: int -> int)
    requires view(1) == 0 && view(2) == 1
  {
    var calib := new EMEnergyCalib();
    var hits := [Hit(0, 0, 10, 100, 100.0, 5.0), Hit(0, 1, 20, 200, 200.0, 6.0), Hit(0, 2, 30, 300, 300.0, 7.0)];
    var assn := ClusterAssn(true, [[42], [], []]);
    var channels := [SimChannel(1, [[1.5], [2.5]]), SimChannel(2, [[4.0]])];
    calib.Analyze(Some(hits), assn, [0.105], channels, view);
    DepositExample(view);
    var row := calib.Current();
    assert row.nhits == 3 && row.trueEnergy == 0.105;
    assert SlotAt(row, 0) == HitSlot(0, 0, 10, 100, 100.0, 5.0, 42);
    assert SlotAt(row, 1).wire == 20 && SlotAt(row, 1).clusterId == -1;
    assert SlotAt(row, 2).charge == 7.0 && SlotAt(row, 2).clusterId == -1;
    assert SlotAt(row, 3) == ZeroSlot;
    assert row.depositU == 4.0 && row.depositV == 4.0 && row.depositZ == 0.0;
  }

  /** The capacity boundary: 10001 hits populate all 10000 slots while the
      count says 10001, and the recorded row keeps 10000 of them. */
  method CapacityBoundary(view: int -> int)
  {
    var calib := new EMEnergyCalib();
    var hits := seq(MaxHits + 1, i => Hit(0, 0, i, i, 0.0, 0.0));
    calib.Analyze(Some(hits), ClusterAssn(false, []), [1.0], [], view);
    var row := calib.Current();
    assert row.nhits == 10001;
    assert SlotAt(row, 9999).wire == 9999 && SlotAt(row, 9999).clusterId == 0;
    OverflowBreaksColumnAsWritten(row);
    assert |calib.Tree[0].hitTpc| == MaxHits;
  }

  /** An event whose hit collection is absent: no hit is counted and every
      slot keeps its reset value, while the deposits are still summed. */
  method AbsentHits(view: int -> int)
    requires view(7) == 2
  {
    var calib := new EMEnergyCalib();
    calib.Analyze(None, ClusterAssn(true, []), [2.0], [SimChannel(7, [[0.5]])], view);
    var row := calib.Current();
    assert row.nhits == 0;
    assert SlotAt(row, 0) == ZeroSlot && SlotAt(row, MaxHits - 1) == ZeroSlot;
    assert [SimChannel(7, [[0.5]])][1..] == [];
    assert row.depositZ == 0.5 && row.depositU == 0.0;
  }
}
