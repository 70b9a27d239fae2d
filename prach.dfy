/**
 * Translation of an SCF-222 (FAPI) UL PRACH PDU into the PHY's PRACH buffer
 * context. Only the PHY-context configuration scope, resource configuration
 * index 0, frequency-domain occasion 0 and a single PRACH occasion are
 * supported; the translation demands these of its caller.
 *
 * Building a `slot_point` is not part of this model: the slot is recorded as
 * the triple it is built from.
 */
module PrachAdaptor {

  /** Number of numerologies mu = 0..4 (table 4.2-1 of 3GPP TS 38.211). */
  const MAX_NOF_NUMEROLOGIES: nat := 5

  /** Subcarrier spacing 15 * 2^mu kHz. */
  datatype SubcarrierSpacing = Khz15 | Khz30 | Khz60 | Khz120 | Khz240

  /**
   * The numerology mu of a subcarrier spacing. The spacing type is taken to
   * hold exactly the five spacings above, so mu is always a valid index.
   */
  function ToNumerologyValue(scs: SubcarrierSpacing): (mu: nat)
    ensures mu < MAX_NOF_NUMEROLOGIES
  {
    match scs
    case Khz15 => 0
    case Khz30 => 1
    case Khz60 => 2
    case Khz120 => 3
    case Khz240 => 4
  }

  /** PRACH preamble formats (tables 6.3.3.1-1 and 6.3.3.1-2 of 3GPP TS 38.211). */
  datatype PrachFormat = Format0 | Format1 | Format2 | Format3 | A1 | A2 | A3 | B1 | B2 | B3 | B4 | C0 | C2

  datatype RestrictedSetConfig = Unrestricted | TypeA | TypeB

  datatype PrachConfigScope = PhyContext | CommonContext

  /** A slot of a frame at a given subcarrier spacing. */
  datatype SlotPoint = SlotPoint(scs: SubcarrierSpacing, sfn: nat, slot: nat)

  datatype PrachMaintenanceV3 = PrachMaintenanceV3(
    prachConfigScope: PrachConfigScope,
    prachResConfigIndex: nat,
    startPreambleIndex: nat,
    numPreambleIndices: nat)

  datatype UlPrachPdu = UlPrachPdu(
    prachFormat: PrachFormat,
    prachStartSymbol: nat,
    numPrachOcas: nat,
    indexFdRa: nat,
    maintenanceV3: PrachMaintenanceV3)

  datatype PrachFdOccasionConfig = PrachFdOccasionConfig(
    prachRootSequenceIndex: nat,
    prachFreqOffset: nat,
    prachZeroCorrConf: nat)

  datatype PrachConfig = PrachConfig(
    prachUlBwpPuschScs: SubcarrierSpacing,
    restrictedSet: RestrictedSetConfig,
    fdOccasions: seq<PrachFdOccasionConfig>)

  /** Uplink grid size in PRBs, one entry per numerology. */
  type GridSizes = s: seq<nat> | |s| == MAX_NOF_NUMEROLOGIES witness [0, 0, 0, 0, 0]

  datatype CarrierConfig = CarrierConfig(ulGridSize: GridSizes)

  /** The caller's obligations for a PDU the translation supports. */
  predicate SupportedPdu(pdu: UlPrachPdu, prachCfg: PrachConfig)
  {
    && pdu.maintenanceV3.prachConfigScope == PhyContext
    && pdu.maintenanceV3.prachResConfigIndex == 0
    && pdu.indexFdRa == 0
    && pdu.numPrachOcas == 1
    && pdu.indexFdRa < |prachCfg.fdOccasions|
  }

  /** `prach_buffer_context`, which the translation fills in place. */
  class PrachBufferContext {
    var slot: SlotPoint
    var sector: nat
    var port: nat
    var format: PrachFormat
    var rbOffset: nat
    var nofPrbUlGrid: nat
    var puschScs: SubcarrierSpacing
    var rootSequenceIndex: nat
    var restrictedSet: RestrictedSetConfig
    var zeroCorrelationZone: nat
    var startSymbol: nat
    var startPreambleIndex: nat
    var nofPreambleIndices: nat

    constructor ()
    {
      slot := SlotPoint(Khz15, 0, 0);
      sector, port, rbOffset, nofPrbUlGrid := 0, 0, 0, 0;
      format := Format0;
      puschScs := Khz15;
      rootSequenceIndex, zeroCorrelationZone := 0, 0;
      restrictedSet := Unrestricted;
      startSymbol, startPreambleIndex, nofPreambleIndices := 0, 0, 0;
    }
  }

  /**
   * Fills `context` from the PDU, the PRACH and carrier configuration, the
   * slot and the sector: the PUSCH subcarrier spacing fixes both the slot's
   * numerology and the uplink grid size, the frequency-domain occasion gives
   * the RB offset, root sequence and zero-correlation zone, and the port is 0.
   */
  method ConvertPrachFapiToPhy(
    context: PrachBufferContext,
    fapiPdu: UlPrachPdu,
    prachCfg: PrachConfig,
    carrierCfg: CarrierConfig,
    sfn: nat,
    slot: nat,
    sectorId: nat)
    requires SupportedPdu(fapiPdu, prachCfg)
    modifies context
    ensures context.slot == SlotPoint(prachCfg.prachUlBwpPuschScs, sfn, slot)
    ensures context.slot.scs == context.puschScs
    ensures context.sector == sectorId
    ensures context.format == fapiPdu.prachFormat
    ensures context.startSymbol == fapiPdu.prachStartSymbol
    ensures context.startPreambleIndex == fapiPdu.maintenanceV3.startPreambleIndex
    ensures context.nofPreambleIndices == fapiPdu.maintenanceV3.numPreambleIndices
    ensures context.puschScs == prachCfg.prachUlBwpPuschScs
    ensures context.restrictedSet == prachCfg.restrictedSet
    ensures context.nofPrbUlGrid == carrierCfg.ulGridSize[ToNumerologyValue(prachCfg.prachUlBwpPuschScs)]
    ensures context.rbOffset == prachCfg.fdOccasions[fapiPdu.indexFdRa].prachFreqOffset
    ensures context.rootSequenceIndex == prachCfg.fdOccasions[fapiPdu.indexFdRa].prachRootSequenceIndex
    ensures context.zeroCorrelationZone == prachCfg.fdOccasions[fapiPdu.indexFdRa].prachZeroCorrConf
    ensures context.port == 0
  {
    context.slot := SlotPoint(prachCfg.prachUlBwpPuschScs, sfn, slot);
    context.sector := sectorId;
    context.format := fapiPdu.prachFormat;
    context.startSymbol := fapiPdu.prachStartSymbol;
    context.startPreambleIndex := fapiPdu.maintenanceV3.startPreambleIndex;
    context.nofPreambleIndices := fapiPdu.maintenanceV3.numPreambleIndices;

    context.puschScs := prachCfg.prachUlBwpPuschScs;
    context.restrictedSet := prachCfg.restrictedSet;
    context.nofPrbUlGrid := carrierCfg.ulGridSize[ToNumerologyValue(context.puschScs)];

    var fdOccas := prachCfg.fdOccasions[fapiPdu.indexFdRa];
    context.rbOffset := fdOccas.prachFreqOffset;
    context.rootSequenceIndex := fdOccas.prachRootSequenceIndex;
    context.zeroCorrelationZone := fdOccas.prachZeroCorrConf;

    context.port := 0;
  }
}
