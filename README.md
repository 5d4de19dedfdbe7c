# EMEnergyCalib: a Dafny model of the EM shower energy calibration analyzer

The `emshower::EMEnergyCalib` analyzer writes one row per event to an analysis
tree, for calibrating reconstructed electromagnetic shower energy against the
true deposited energy in simulation. The row holds the true energy of the
primary particle, one deposited-energy accumulator per readout view (U, V, Z),
the hit count, and seven parallel per-hit buffers of capacity `kMaxHits =
10000` (TPC, plane, wire, channel, peak time, integral, cluster ID).

This project models the analyzer's row as a Dafny class (`EmShower.EMEnergyCalib`)
whose fields are those scalars and seven `array`s. Its methods follow the
source:

- `Reset` zeroes every scalar and every slot.
- `FillHits` is the hit loop. It copies hit `i` into slot `i` only while
  `i < MaxHits`. When the association is valid, it writes the first associated
  cluster's ID, or `-1` if there is none. It then records the true hit count.
- `AccumulateDeposits` is the three nested loops over simulated channels, TDC
  buckets and deposits (IDEs).
- `Fill` appends the recorded row, with its columns cut at the capacity, to the tree, which is a ghost sequence.
- `Analyze` runs all of the above for one event.

Each method's postcondition ties the new row to a pure function of the old
row and the inputs (`ResetRow`, `WithHits`, `WithDeposits`, `EventRow`). The
module `Deposits` defines the per-view sums and proves what they mean. The
properties are stated about these functions: which slots change and which
stay put, the `-1` sentinel, the count that can exceed the populated slots,
and the filtered sums.

Framework inputs are parameters:
- the hit collection, an `Option` (absent means no hits);
- the association, as a validity flag plus one list of cluster IDs per hit;
- the energies of the simulated primary particles (at least one is required,
  because `Primary(0)` is dereferenced unchecked);
- the simulated channels, each a list of TDC buckets, each bucket a list of
  deposit energies;
- the geometry's channel-to-view function.

Where the code and descriptions of the module differ, the model follows the
code, with one exception:
- `Hit_ClusterID` is `-1` exactly for unclustered hits only when the
  association is valid. When it is not valid, the slots keep their reset value
  `0`.
- The exception is the tree's per-hit columns. The code declares them with the
  true count `NHits` as their length, which reads past the buffers once
  `NHits` exceeds 10000 (see Findings). `Fill`, and so `Analyze`, record the
  corrected columns (`Recorded`), cut at `min(NHits, 10000)`. The column as
  written is `ColumnAsWritten`, and `OverflowBreaksColumnAsWritten` states how
  the two compare.

## Model

| member | source | states |
|---|---|---|
| `EmShower.EMEnergyCalib.constructor` | duneana/EnergyStudies/EMEnergyCalib_module.cc:77-92 | allocates seven distinct buffers of capacity MaxHits; their contents are not defined until a reset; the tree starts empty |
| `EmShower.ResetRow` | duneana/EnergyStudies/EMEnergyCalib_module.cc:185-200 | after reset, the true energy, the three deposits and the hit count are 0, and every slot 0..MaxHits-1 of all seven buffers is 0 |
| `EmShower.EMEnergyCalib.Reset` | duneana/EnergyStudies/EMEnergyCalib_module.cc:185-200 | the whole row buffer after the loop equals ResetRow |
| `EmShower.Populated` | duneana/EnergyStudies/EMEnergyCalib_module.cc:121-123 | the number of slots n hits populate is min(n, MaxHits) |
| `EmShower.FillSlotsStep` | duneana/EnergyStudies/EMEnergyCalib_module.cc:125-143 | one iteration below the capacity writes slot n from hit n, and writes the cluster ID only when the association is valid |
| `EmShower.WithHits` | duneana/EnergyStudies/EMEnergyCalib_module.cc:121-149 | for i < min(number of hits, MaxHits), slot i holds hit i's TPC, plane, wire, channel, peak time and integral; its cluster ID is the first associated cluster's ID or -1 when the association is valid, and is left as it was otherwise; slots at or past min(number of hits, MaxHits) are unchanged; the count is the true number of hits |
| `EmShower.EMEnergyCalib.FillHits` | duneana/EnergyStudies/EMEnergyCalib_module.cc:121-149 | the row after the hit loop equals WithHits of the row before it; only nhits and the buffers change |
| `EmShower.EMEnergyCalib.AccumulateDeposits` | duneana/EnergyStudies/EMEnergyCalib_module.cc:157-177 | each accumulator grows by exactly PlaneDeposit of its view; nothing else changes |
| `Deposits.PlaneDepositStep` | duneana/EnergyStudies/EMEnergyCalib_module.cc:158-176 | folding in one more channel adds its total energy to the accumulator of its own view and nothing to any other |
| `Deposits.PlaneDepositAppend` | duneana/EnergyStudies/EMEnergyCalib_module.cc:157-177 | the deposit of a view over two channel lists is the sum of the deposits over each |
| `Deposits.UnknownViewIgnored` | duneana/EnergyStudies/EMEnergyCalib_module.cc:164-174 | a channel whose view is not 0, 1 or 2 changes none of the three accumulators |
| `Deposits.PlanesPartitionEnergy` | duneana/EnergyStudies/EMEnergyCalib_module.cc:157-177 | when every channel's view is 0, 1 or 2, U + V + Z equals the total deposited energy |
| `Deposits.PlaneDepositIsFilteredSum` | duneana/EnergyStudies/EMEnergyCalib_module.cc:157-177 | each accumulator equals the sum of the flattened list of deposit energies of the channels on that view |
| `Deposits.PlaneDepositMonotone` | duneana/EnergyStudies/EMEnergyCalib_module.cc:158-177 | with non-negative deposit energies, an accumulator never decreases as more channels are folded in |
| `Deposits.DepositExample` | duneana/EnergyStudies/EMEnergyCalib_module.cc:164-174 | deposits 1.5 and 2.5 on a view-0 channel and 4.0 on a view-1 channel give U = 4.0, V = 4.0, Z = 0.0 |
| `EmShower.EventRow` | duneana/EnergyStudies/EMEnergyCalib_module.cc:99-177 | the row of one event: count = number of hits (0 for an absent collection); slot i < min(n, MaxHits) holds hit i, with the first associated cluster's ID (or -1 for none) if the association is valid and 0 if not; slots at or past n are 0; true energy = the primary's; each deposit is the filtered sum of its view |
| `EmShower.EMEnergyCalib.Analyze` | duneana/EnergyStudies/EMEnergyCalib_module.cc:99-183 | the row after an event equals EventRow of that event's inputs, whatever the previous event left; exactly one row is appended to the tree |
| `EmShower.EMEnergyCalib.Fill` | duneana/EnergyStudies/EMEnergyCalib_module.cc:179 | appends the recorded form of the current row to the tree and changes nothing else |
| `EmShower.Recorded` | duneana/EnergyStudies/EMEnergyCalib_module.cc:84-91 | the recorded row keeps the true energy, the three deposits and the count; each of the seven columns is the first min(NHits, MaxHits) slots of its buffer, so it has NHits entries while NHits fits and exactly MaxHits entries past it |
| `EmShower.ColumnAsWritten` | duneana/EnergyStudies/EMEnergyCalib_module.cc:85-91 | a column of length NHits, as the branch descriptors declare it, taken from a buffer, defined only while NHits fits the buffer |
| `EmShower.OverflowBreaksColumnAsWritten` | duneana/EnergyStudies/EMEnergyCalib_module.cc:85-91 | for each of the seven buffers, the column as written can be formed if and only if NHits <= MaxHits; while it can, it equals that column of the recorded row; past it, the recorded column has MaxHits entries, fewer than NHits |

The client methods `EndToEndScenario`, `CapacityBoundary` and `AbsentHits`
apply `Analyze` to a concrete event:
- three hits, one of them in cluster 42; the expected slots and deposits follow;
- 10001 hits, which fill all 10000 slots while `NHits` records 10001;
- an absent hit collection, which leaves every slot at 0.

## Left out

- The art framework (`art::Event`, `getByLabel`, `Handle`, `fill_ptr_vector`, `FindManyP`, lines 107-118): replaced by the hit `Option` and the `ClusterAssn` parameter.
- The cluster collection fetch (lines 113-116): it feeds nothing except the association.
- `TFileService`, tree creation and branch registration (lines 79-91): persistence I/O. `Fill` is modelled as appending to the ghost sequence `Tree`.
- `reconfigure` and the two module labels (lines 94-97): fhicl configuration only.
- The BackTracker and Geometry services (lines 151-159): given as the list of primary energies and the channel-to-view function. `Momentum().E()` is taken as the given energy.
- Floating point: energies, peak times and charges are `real`. Rounding is not modelled, so neither is the dependence of a `double` sum on the order of the TDC buckets and deposits.
- Integer widths: `nhits` is an `int` set from `hits.size()`. The narrowing from `size_t` past 2^31-1 is not modelled. The unsigned WireID fields and channel number are stored as plain `int`s.
- `EmShower.EMEnergyCalib.FillHits`: requires that a valid association has an entry for every slot written. `fmc.at` would throw otherwise; the framework builds the association with one entry per hit.
- `EmShower.EMEnergyCalib.Fill`: appends the corrected row `Recorded`, whose columns stop at `min(NHits, MaxHits)`. It does not model what the code as written records once `NHits` exceeds 10000, which is a read past each buffer; `ColumnAsWritten` models that column separately.
- The C++ buffers are uninitialized before the first `reset`. The model's constructor leaves their contents unspecified, and nothing reads them before `Reset`.

## Findings

| source | as written | input that shows it | evidently intended | confidence | as-written member | corrected member |
|---|---|---|---|---|---|---|
| duneana/EnergyStudies/EMEnergyCalib_module.cc:85-91 | each per-hit branch is declared `hit_x[NHits]`, so `Fill()` writes `NHits` elements from a buffer of `kMaxHits`, and `NHits` is the true count (line 149) | an event with 10001 hits: `NHits` is 10001, and the branches read one element past each 10000-slot buffer | each column holds `min(NHits, 10000)` populated slots | medium, not executed | `EmShower.ColumnAsWritten`, `EmShower.OverflowBreaksColumnAsWritten` | `EmShower.Recorded` |
