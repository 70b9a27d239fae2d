# srsRAN: GTP-U NR-U transmission, scheduler helpers and PHY parameter arithmetic

This project models, in Dafny, three groups of small self-contained pieces of
the srsRAN base-station stack and proves their properties.

- **GTP-U NR-U transmit path** (`GtpuTunnelNruTx`, `GtpuConfig`). The NR-U
  TX entity turns each uplink NR-U message into one GTP-U data PDU. The PDU has
  a version-1 GTP header towards the peer TEID. Its extension chain holds
  exactly one NR RAN Container, which carries the packed data delivery status
  (sections 5.1 and 5.2 of 3GPP TS 29.281). The entity sends that PDU once, to
  the peer address resolved at construction. It drops the SDU instead on any
  of four failures: no delivery status, packing fails, the T-PDU copy fails, or
  the header write fails. The tunnel configuration records are modelled with
  their text renderings. The GTP-U UDP port constant is `GtpuConfig.GTPU_PORT`
  = 2152 (section 4.4.2.3 of 3GPP TS 29.281).
- **Scheduler helpers** (`UeCell`, `LogicalChannelConfigFactory`):
  - redundancy-version selection by retransmission count modulo the length of
    the configured RV sequence;
  - layer counts from the reported rank indicator;
  - the PUSCH SNR update;
  - the default logical-channel configuration for SRBs and DRBs.
- **PHY parameter arithmetic and record translation** (`PdschModulator`,
  `PrachAdaptor`):
  - the PDSCH scrambling initialiser c_init = n_RNTI·2^15 + q·2^14 + n_ID
    (section 7.3.1.1 of 3GPP TS 38.211), in unsigned 32-bit arithmetic;
  - scrambling as an XOR with the pseudo-random sequence;
  - the resource-element count nof_bits / Q_m;
  - the OFDM symbol mask of the mapper;
  - the FAPI (SCF-222) UL PRACH PDU to `prach_buffer_context` translation.

Collaborators whose code is not part of this model become parameters of the
model:
- `gtpu_write_header`, `nru_packing::pack` and the success of `deep_copy` are
  function-valued fields of `NruTxEntity`, given to its constructor. Being
  functions, they are deterministic: the same arguments always give the same
  result;
- `to_sockaddr` is a function given only to `NruTxEntity`'s constructor, which
  keeps just its result, the peer socket address;
- the pseudo-random bit sequence is a function given to `PdschModulatorImpl`;
- `is_srb` is the parameter `isSrb`;
- each per-field text rendering (TEID, milliseconds, port) is a field of a
  `FieldFormat` record.

The NR-U TX entity's network sends form a ghost log `sent` of
(bytes, destination) events.

## Model

| member | source | states |
|---|---|---|
| `GtpuTunnelNruTx.NruTxEntity.constructor` | lib/gtpu/gtpu_tunnel_nru_tx_impl.h:28-38 | the configuration is kept as given, the peer socket address is resolved once from `cfg.peer_addr` and `cfg.peer_port`, and nothing has been sent yet |
| `GtpuTunnelNruTx.NruTxEntity.HandleSdu` | lib/gtpu/gtpu_tunnel_nru_tx_impl.h:44-91 | no delivery status: dropped (MissingDeliveryStatus); packing fails: dropped (PackFailure); otherwise the header is the NR-U data header towards `cfg.peer_teid` with the packed status as its only extension. A present T-PDU whose copy fails: dropped (CopyFailure). An absent T-PDU gives an empty payload. Header write fails: dropped (HeaderWriteFailure); otherwise exactly the written bytes are sent. The send log grows by one (bytes, peer address) entry on a send and is unchanged on every drop |
| `GtpuTunnelNruTx.NruUlDataHeaderShape` | lib/gtpu/gtpu_tunnel_nru_tx_impl.h:46-72 | a header with version 1, protocol type GTP, only the E flag, message type G-PDU, the peer TEID and one NR RAN Container extension is fully determined by the TEID and the container, and its next-extension-type names its one extension |
| `GtpuTunnelNruTx.HandleSduTwice` | lib/gtpu/gtpu_tunnel_nru_tx_impl.h:93-97 | the entity keeps no per-call state: for the same collaborator results, the same message handled twice gives the same outcome, and each call sends at most one PDU, to the same peer address |
| `GtpuConfig.DefaultNguRxConfig` | include/srsran/gtpu/gtpu_config.h:27-30 | an NG-U RX config with only its local TEID given has a zero `t_reordering` |
| `GtpuConfig.FormatNguRx` | include/srsran/gtpu/gtpu_config.h:70 | the NG-U RX rendering "local_teid=… t_reordering=…"; `NguFields` proves it splits into exactly those two fields |
| `GtpuConfig.FormatNguTx` | include/srsran/gtpu/gtpu_config.h:87 | the NG-U TX rendering "peer_teid=… peer_addr=… peer_port=…"; `NguFields` proves it splits into exactly those three fields |
| `GtpuConfig.FormatNgu` | include/srsran/gtpu/gtpu_config.h:104 | the RX rendering, one space, the TX rendering; `NguFields`, `NguFieldsJoin` and `NguRenderingInjective` prove it splits into the five fields, is rebuilt from them, and tells configs apart |
| `GtpuConfig.FormatNruRx` | include/srsran/gtpu/gtpu_config.h:121 | the NR-U RX rendering "local_teid=…"; `NruFields` proves it is a single field |
| `GtpuConfig.FormatNruTx` | include/srsran/gtpu/gtpu_config.h:138 | the NR-U TX rendering, the same layout as the NG-U one (`TxRenderingsAgree`) |
| `GtpuConfig.FormatNru` | include/srsran/gtpu/gtpu_config.h:155 | the RX rendering, one space, the TX rendering; `NruFields`, `NruFieldsJoin` and `NruRenderingInjective` prove it splits into the four fields, is rebuilt from them, and tells configs apart |
| `GtpuConfig.TxRenderingsAgree` | include/srsran/gtpu/gtpu_config.h:87 | NG-U and NR-U TX configs with equal fields render to the same text, "peer_teid=… peer_addr=… peer_port=…" |
| `GtpuConfig.NguFields` | include/srsran/gtpu/gtpu_config.h:70-104 | a whole NG-U config renders as the RX rendering, one space, then the TX rendering. Split at spaces it gives exactly the five fields local_teid, t_reordering, peer_teid, peer_addr, peer_port, in that order |
| `GtpuConfig.NruFields` | include/srsran/gtpu/gtpu_config.h:121-155 | a whole NR-U config renders as the RX rendering (local_teid only, no reordering timer), one space, then the TX rendering. Split at spaces it gives exactly the four fields local_teid, peer_teid, peer_addr, peer_port |
| `GtpuConfig.NguFieldsJoin` | include/srsran/gtpu/gtpu_config.h:70-104 | the five NG-U fields joined with single spaces give back the NG-U rendering |
| `GtpuConfig.NruFieldsJoin` | include/srsran/gtpu/gtpu_config.h:121-155 | the four NR-U fields joined with single spaces give back the NR-U rendering |
| `GtpuConfig.NguRenderingInjective` | include/srsran/gtpu/gtpu_config.h:70-104 | with injective, space-free field renderings and space-free peer addresses, two NG-U configs with equal renderings are equal |
| `GtpuConfig.NruRenderingInjective` | include/srsran/gtpu/gtpu_config.h:121-155 | the same for NR-U configs |
| `UeCell.RvForRetx` | lib/scheduler/ue_scheduling/ue_cell.h:87-94 | for a non-empty RV sequence the chosen RV is always an entry of the sequence; retransmission n < length uses entry n |
| `UeCell.RvPeriodic` | lib/scheduler/ue_scheduling/ue_cell.h:87-94 | retransmission counts n and n + k·length give the same RV |
| `UeCell.UeCellContext.GetPdschRv` | lib/scheduler/ue_scheduling/ue_cell.h:87-90 | the PDSCH RV is the configured PDSCH RV sequence's entry for TB 0's retransmission count, and lies in that sequence |
| `UeCell.UeCellContext.GetPuschRv` | lib/scheduler/ue_scheduling/ue_cell.h:91-94 | the PUSCH RV follows the same rule over the PUSCH RV sequence |
| `UeCell.NofDlLayers` | lib/scheduler/ue_scheduling/ue_cell.h:100 | DL layers are RI + 1, hence at least 1, whenever RI + 1 does not wrap in 32 bits |
| `UeCell.UeCellContext.GetNofDlLayers` | lib/scheduler/ue_scheduling/ue_cell.h:99-100 | the cell's DL layer count is its latest RI + 1 |
| `UeCell.UeCellContext.GetNofUlLayers` | lib/scheduler/ue_scheduling/ue_cell.h:102-103 | UL always uses one layer |
| `UeCell.FreshMetrics` | lib/scheduler/ue_scheduling/ue_cell.h:41-50 | fresh metrics keep the wideband CQI the constructor gives them |
| `UeCell.FreshMetricsOneDlLayer` | lib/scheduler/ue_scheduling/ue_cell.h:44-49 | fresh metrics have RI 0, PMI 0 and no consecutive PUSCH KOs, so the DL layer count starts at 1 |
| `UeCell.UeCellContext.constructor` | lib/scheduler/ue_scheduling/ue_cell.h:52-57 | a new cell context starts from fresh metrics |
| `UeCell.UeCellContext.ActiveBwpId` | lib/scheduler/ue_scheduling/ue_cell.h:66 | the active BWP is always BWP 0 |
| `UeCell.UeCellContext.IsActive` | lib/scheduler/ue_scheduling/ue_cell.h:67 | the cell always reports active |
| `UeCell.WithPuschSnr` | lib/scheduler/ue_scheduling/ue_cell.h:111-116 | no SNR value leaves the metrics unchanged; a value overwrites only the PUSCH SNR, and every other metric is kept |
| `UeCell.UeCellContext.UpdatePuschSnr` | lib/scheduler/ue_scheduling/ue_cell.h:111-116 | the cell's metrics become the old metrics with the optional SNR applied |
| `LogicalChannelConfigFactory.CreateDefaultLogicalChannelConfig` | lib/scheduler/config/logical_channel_config_factory.cpp:15-24 | the LCID is kept; an SRB gets priority 1 in LCG 0 and any other channel priority 2 in LCG 1, so priority is always LCG + 1; the SR mask and the SR delay timer are off |
| `LogicalChannelConfigFactory.SrbsOutrankOtherChannels` | lib/scheduler/config/logical_channel_config_factory.cpp:19-20 | by default every SRB has a smaller (more urgent) priority value than every DRB, and channels of the same class share priority and group |
| `PdschModulator.CInit` | lib/phy/upper/channel_processors/pdsch_modulator_impl.cpp:24 | c_init with each shift and sum in unsigned 32-bit arithmetic; `CInitFields` and `CInitInjective` prove what it is in range |
| `PdschModulator.Scrambled` | lib/phy/upper/channel_processors/pdsch_modulator_impl.cpp:26-30 | the codeword XOR-ed bit by bit with the sequence that c_init selects, of the codeword's length; `DescrambleRoundTrip` proves it is its own inverse |
| `PdschModulator.CInitFields` | lib/phy/upper/channel_processors/pdsch_modulator_impl.cpp:24 | for q < 2 and n_ID < 2^14 the 32-bit c_init does not wrap, equals n_RNTI·2^15 + q·2^14 + n_ID, and the RNTI, q and n_ID can be read back from its bit fields |
| `PdschModulator.CInitInjective` | lib/phy/upper/channel_processors/pdsch_modulator_impl.cpp:24 | distinct (RNTI, q, n_ID) in range give distinct scrambling initial states |
| `PdschModulator.DescrambleRoundTrip` | lib/phy/upper/channel_processors/pdsch_modulator_impl.cpp:26-30 | scrambling twice with the same initial state gives back the codeword |
| `PdschModulator.NofRe` | lib/phy/upper/channel_processors/pdsch_modulator_impl.cpp:104-108 | the RE count is the largest count whose bits fit in the codeword: nof_re·Q_m ≤ nof_bits < (nof_re + 1)·Q_m |
| `PdschModulator.RangeMaskCount` | lib/phy/upper/channel_processors/pdsch_modulator_impl.cpp:66-68 | a mask filled over [start, end) sets exactly as many positions as the range has in the mask |
| `PdschModulator.PdschModulatorImpl.constructor` | lib/phy/upper/channel_processors/pdsch_modulator_impl.cpp:19-33 | the modulator holds the pseudo-random sequence it scrambles with and the symbol buffer capacity, and starts with an empty `temp_b_hat` |
| `PdschModulator.PdschModulatorImpl.Scramble` | lib/phy/upper/channel_processors/pdsch_modulator_impl.cpp:19-33 | the member buffer becomes the codeword XOR-ed with the sequence for c_init(rnti, q, n_id), has the codeword's length, and is returned |
| `PdschModulator.PdschModulatorImpl.Map` | lib/phy/upper/channel_processors/pdsch_modulator_impl.cpp:55-68 | requires start + nof_symbols ≤ 14; the symbol mask sets exactly the symbols in [start, start + nof_symbols), nof_symbols of them |
| `PdschModulator.PdschModulatorImpl.Modulate` | lib/phy/upper/channel_processors/pdsch_modulator_impl.cpp:97-121 | exactly one codeword is accepted. It is scrambled with q = 0. nof_re = nof_bits / Q_m and must fit the symbol buffer. The mapper gets the symbol mask of the allocation |
| `PdschModulator.BitsPerSymbol` | lib/phy/upper/channel_processors/pdsch_modulator_impl.cpp:104 | Q_m is between 1 and 8 for every modulation scheme, so the division by it is defined |
| `PrachAdaptor.ConvertPrachFapiToPhy` | lib/fapi_adaptor/phy/messages/prach.cpp:17-51 | requires PHY-context scope, resource config index 0, FD occasion index 0, a single PRACH occasion and that FD occasion in bounds. Sector, format, start symbol, preamble start and count are copied; the PUSCH SCS is copied and is the slot's SCS. The UL grid size is taken at that SCS's numerology. RB offset, root sequence and zero-correlation zone come from the FD occasion. The port is 0 |
| `PrachAdaptor.ToNumerologyValue` | lib/fapi_adaptor/phy/messages/prach.cpp:41 | every subcarrier spacing of the model has a numerology below 5, so indexing the 5-entry UL grid size table is in bounds; this rests on the spacing type holding exactly the numerologies 0 to 4 (see "Left out") |

## Left out

- The GTP-U header codec (`gtpu_pdu.h`), the RX entities, the reordering engine and the TEID repository: their code is not part of this model. The header field values come from sections 5.1 and 5.2 of 3GPP TS 29.281: version 1, protocol type 1, message type 255 (G-PDU), NR RAN Container type 0x84.
- `gtpu_write_header`, `nru_packing::pack` and `to_sockaddr` are arbitrary but deterministic functions: the model assumes nothing about their results except that the same arguments give the same result. The header length is left at 0 for the writer, as the source does.
- `GtpuTunnelNruTx.HandleSduTwice`: `deep_copy` is modelled as a success predicate of the T-PDU. When it succeeds, the payload is the T-PDU's bytes. In the source a copy failure is a buffer-pool allocation failure, which depends on the pool and not on the message, so the same message can be sent once and dropped the next time. The model does not capture that; its equal-outcome promise holds only for the same collaborator results.
- Logging, pcap capture and the network send: a send is only the ghost `(bytes, destination)` event in `sent`.
- How a TEID, a `std::chrono::milliseconds` value and a port are printed, and the fmt library itself: these are the abstract `FieldFormat` functions.
- `UeCell.NofDlLayers`: states RI + 1 ≥ 1 only while RI < 2^32 − 1. At RI = 2^32 − 1 the unsigned sum wraps to 0, as it does in C++.
- `UeCell.WithPuschSnr`: the PUSCH SNR is a `real`. NaN and infinite SNR reports, which an `optional<float>` can hold, are not represented.
- HARQ entities, CSI report handling, PRB estimation, CRC handling, reconfiguration and the `ue_cell` constructor body have no bodies in the source. The constructor model only sets the metrics to their declared defaults and takes the initial wideband CQI as a parameter.
- `PdschModulator`: modulation into complex samples, the `std::isnormal` scaling, `get_prb_mask`, the DM-RS pattern, reserved-RE merging and `resource_grid_mapper::map` are left out. They are floating-point or code that is not part of this model.
- The pseudo-random sequence generator is an abstract bit function of (c_init, index). `temp_b_hat.resize` is not modelled separately, because the XOR overwrites every bit.
- `PdschModulatorImpl.Map`: the start symbol and symbol count are unbounded naturals, because the config header is not part of this model. The 32-bit wrap of their sum is therefore not modelled.
- `slot_point` construction is external. A slot is recorded as the (SCS, SFN, slot) triple it is built from.
- `PrachAdaptor.ToNumerologyValue`: `to_numerology_value` and the `subcarrier_spacing` type are not part of this model. The model assumes the spacing type holds exactly the five spacings of table 4.2-1 of 3GPP TS 38.211, with numerologies 0 to 4. Any other spacing value, which would index `ul_grid_size` out of bounds, is not represented.
- FAPI and PHY field widths are natural numbers, because the FAPI message headers are not part of this model. Fields that the translation does not touch are left out.
- `is_srb` is decided elsewhere and is the parameter `isSrb`. Fields of `logical_channel_config` that the factory does not assign are left out.
