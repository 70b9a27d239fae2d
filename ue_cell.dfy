/**
 * The part of a UE's serving-cell context that the scheduler queries:
 * redundancy-version selection for retransmissions, the number of layers,
 * the active BWP, and the per-cell metrics with the PUSCH SNR update.
 *
 * HARQ entities, CSI handling, PRB estimation and CRC handling are declared
 * by the source without bodies and are not part of this model.
 */
module UeCell {
  import opened Integers
  import opened Wrappers

  /** Redundancy versions cycle through `rvSequence`: the n-th retransmission uses entry n modulo its length. */
  function RvForRetx(rvSequence: seq<Uint8>, nofRetxs: nat): (rv: Uint8)
    requires |rvSequence| > 0
    ensures rv in rvSequence
    ensures nofRetxs < |rvSequence| ==> rv == rvSequence[nofRetxs]
  {
    rvSequence[nofRetxs % |rvSequence|]
  }

  /** RV selection is periodic in the length of the sequence. */
  lemma {:induction false} RvPeriodic(rvSequence: seq<Uint8>, nofRetxs: nat, periods: nat)
    requires |rvSequence| > 0
    ensures RvForRetx(rvSequence, nofRetxs + periods * |rvSequence|) == RvForRetx(rvSequence, nofRetxs)
    decreases periods
  {
    if periods > 0 {
      var n := |rvSequence|;
      RvPeriodic(rvSequence, nofRetxs, periods - 1);
      assert nofRetxs + periods * n == (nofRetxs + (periods - 1) * n) + n;
      ModAddModulus(nofRetxs + (periods - 1) * n, n);
    }
  }

  lemma ModAddModulus(a: nat, n: nat)
    requires n > 0
    ensures (a + n) % n == a % n
  {
    var q, r := a / n, a % n;
    assert a == q * n + r;
    assert a + n == (q + 1) * n + r;
    DivModUnique(a + n, n, q + 1, r);
  }

  /** The transport block state the RV choice depends on. */
  datatype TransportBlock = TransportBlock(nofRetxs: nat)
  datatype DlHarqProcess = DlHarqProcess(tb0: TransportBlock)
  datatype UlHarqProcess = UlHarqProcess(tb: TransportBlock)

  /** The expert configuration entries used here. */
  datatype SchedulerUeExpertConfig = SchedulerUeExpertConfig(pdschRvSequence: seq<Uint8>, puschRvSequence: seq<Uint8>)

  /**
   * Per-cell UE metrics. The PUSCH SNR is kept as a `real`, which holds every
   * finite report; NaN and infinite reports are not represented.
   */
  datatype Metrics = Metrics(
    puschSnrDb: real,
    consecutivePuschKos: Uint32,
    latestWbCqi: Uint32,
    latestRi: Uint32,
    latestPmi: Uint32)

  /** Metrics as the constructor leaves them, with the wideband CQI it is given. */
  function FreshMetrics(latestWbCqi: Uint32): (m: Metrics)
    ensures m.latestWbCqi == latestWbCqi
  {
    Metrics(0.0, 0, latestWbCqi, 0, 0)
  }

  /** DL layers from the reported rank indicator: RI + 1, in unsigned 32-bit arithmetic. */
  function NofDlLayers(m: Metrics): (layers: Uint32)
    ensures m.latestRi < TWO_TO_32 - 1 ==> layers == m.latestRi + 1 && layers >= 1
  {
    (m.latestRi + 1) % TWO_TO_32
  }

  /** A cell whose UE has not yet reported any rank is served with one DL layer. */
  lemma FreshMetricsOneDlLayer(latestWbCqi: Uint32)
    ensures NofDlLayers(FreshMetrics(latestWbCqi)) == 1
    ensures FreshMetrics(latestWbCqi).consecutivePuschKos == 0 && FreshMetrics(latestWbCqi).latestPmi == 0
  {
  }

  /** `update_pusch_snr`: a missing report keeps the metrics; a present one replaces only the SNR. */
  function WithPuschSnr(m: Metrics, snr: Option<real>): (r: Metrics)
    ensures snr.None? ==> r == m
    ensures snr.Some? ==> r.puschSnrDb == snr.value
    ensures r.consecutivePuschKos == m.consecutivePuschKos && r.latestWbCqi == m.latestWbCqi
    ensures r.latestRi == m.latestRi && r.latestPmi == m.latestPmi
  {
    if snr.Some? then m.(puschSnrDb := snr.value) else m
  }

  class UeCellContext {
    const ueIndex: nat
    const crnti: Uint16
    const expertCfg: SchedulerUeExpertConfig
    /** The metrics, which `get_metrics()` hands out by mutable reference. */
    var ueMetrics: Metrics

    constructor (ueIndex: nat, crnti: Uint16, expertCfg: SchedulerUeExpertConfig, latestWbCqi: Uint32)
      ensures this.ueIndex == ueIndex && this.crnti == crnti && this.expertCfg == expertCfg
      ensures ueMetrics == FreshMetrics(latestWbCqi)
    {
      this.ueIndex := ueIndex;
      this.crnti := crnti;
      this.expertCfg := expertCfg;
      ueMetrics := FreshMetrics(latestWbCqi);
    }

    /** Only the initial BWP is used. */
    function ActiveBwpId(): (id: nat)
      ensures id == 0
    {
      0
    }

    function IsActive(): (active: bool)
      ensures active
    {
      true
    }

    function GetPdschRv(h: DlHarqProcess): (rv: Uint8)
      requires |expertCfg.pdschRvSequence| > 0
      ensures rv in expertCfg.pdschRvSequence
      ensures rv == RvForRetx(expertCfg.pdschRvSequence, h.tb0.nofRetxs)
    {
      RvForRetx(expertCfg.pdschRvSequence, h.tb0.nofRetxs)
    }

    function GetPuschRv(h: UlHarqProcess): (rv: Uint8)
      requires |expertCfg.puschRvSequence| > 0
      ensures rv in expertCfg.puschRvSequence
      ensures rv == RvForRetx(expertCfg.puschRvSequence, h.tb.nofRetxs)
    {
      RvForRetx(expertCfg.puschRvSequence, h.tb.nofRetxs)
    }

    function GetNofDlLayers(): (layers: Uint32)
      reads this
      ensures ueMetrics.latestRi < TWO_TO_32 - 1 ==> layers == ueMetrics.latestRi + 1
    {
      NofDlLayers(ueMetrics)
    }

    function GetNofUlLayers(): (layers: Uint32)
      ensures layers == 1
    {
      1
    }

    method UpdatePuschSnr(snr: Option<real>)
      modifies this
      ensures ueMetrics == WithPuschSnr(old(ueMetrics), snr)
    {
      if snr.Some? {
        ueMetrics := ueMetrics.(puschSnrDb := snr.value);
      }
    }
  }
}
