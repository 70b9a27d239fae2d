/**
 * Transmit side of a GTP-U NR-U tunnel (the F1-U uplink towards the peer):
 * every uplink NR-U message becomes one GTP-U data PDU that carries exactly
 * one NR RAN Container extension header with the packed data delivery status.
 *
 * The header writer, the NR-U packer, the buffer copy and the socket address
 * conversion are not part of this model. The entity keeps the first three as
 * function-valued fields (`writeHeader`, `pack`, `copyOk`) fixed at
 * construction; `toSockaddr` is only a constructor parameter, whose result
 * `peerSockaddr` is kept. Being functions, the collaborators are
 * deterministic: the same arguments always give the same result.
 */
module GtpuTunnelNruTx {
  import opened Integers
  import opened Wrappers
  import opened GtpuConfig

  // Field values of section 5.1 and 5.2 of 3GPP TS 29.281.
  const GTPU_FLAGS_VERSION_V1: Uint8 := 1
  const GTPU_FLAGS_GTP_PROTOCOL: Uint8 := 1
  /** Message type of a G-PDU (a data PDU carrying a T-PDU). */
  const GTPU_MSG_DATA_PDU: Uint8 := 255
  const NO_MORE_EXTENSION_HEADERS: Uint8 := 0x00
  const NR_RAN_CONTAINER: Uint8 := 0x84

  datatype GtpuFlags = GtpuFlags(version: Uint8, protocolType: Uint8, extHdr: bool, seqNumber: bool, nPdu: bool)

  datatype GtpuExtensionHeader = GtpuExtensionHeader(extensionHeaderType: Uint8, container: Bytes)

  datatype GtpuHeader = GtpuHeader(
    flags: GtpuFlags,
    messageType: Uint8,
    length: Uint16,
    teid: Teid,
    seqNumber: Uint16,
    nPduNumber: Uint8,
    nextExtHdrType: Uint8,
    extList: seq<GtpuExtensionHeader>)

  /** The value-initialised header `gtpu_header hdr = {}`. */
  const EMPTY_HEADER := GtpuHeader(GtpuFlags(0, 0, false, false, false), 0, 0, Teid(0), 0, 0, NO_MORE_EXTENSION_HEADERS, [])

  /** An uplink message from the lower layer; `DeliveryStatus` is the NR-U data delivery status type. */
  datatype NruUlMessage<DeliveryStatus> = NruUlMessage(tPdu: Option<Bytes>, dataDeliveryStatus: Option<DeliveryStatus>)

  /** An opaque socket address (`sockaddr_storage`). */
  datatype SockAddr = SockAddr(storage: seq<Uint8>)

  /** One `send_pdu` event: the bytes handed to the network and their destination. */
  datatype SentPdu = SentPdu(pdu: Bytes, dest: SockAddr)

  /** Why an SDU was dropped, one reason per error log of the source. */
  datatype DropReason = MissingDeliveryStatus | PackFailure | CopyFailure | HeaderWriteFailure

  datatype TxOutcome = Sent(pdu: Bytes) | Dropped(reason: DropReason)

  /**
   * The header of an NR-U uplink data PDU towards `teid`, as section 5.1 of
   * 3GPP TS 29.281 lays it out: version 1, protocol type GTP, only the E flag
   * set, a G-PDU message type, and a chain of exactly one NR RAN Container
   * extension header holding `container`. The length is left at 0 for the
   * header writer to fill in.
   */
  ghost predicate IsNruUlDataHeader(h: GtpuHeader, teid: Teid, container: Bytes)
  {
    && h.flags == GtpuFlags(GTPU_FLAGS_VERSION_V1, GTPU_FLAGS_GTP_PROTOCOL, true, false, false)
    && h.messageType == GTPU_MSG_DATA_PDU
    && h.length == 0
    && h.teid == teid
    && h.seqNumber == 0
    && h.nPduNumber == 0
    && h.nextExtHdrType == NR_RAN_CONTAINER
    && h.extList == [GtpuExtensionHeader(NR_RAN_CONTAINER, container)]
  }

  /**
   * The extension chain is self-consistent: the E flag is set exactly when the
   * chain is non-empty, and the next-extension-type field names the type of
   * the first extension (or "no more extension headers").
   */
  ghost predicate ChainConsistent(h: GtpuHeader)
  {
    && (h.flags.extHdr <==> h.extList != [])
    && h.nextExtHdrType == (if h.extList == [] then NO_MORE_EXTENSION_HEADERS else h.extList[0].extensionHeaderType)
  }

  /** The NR-U data header is fully determined by its TEID and container, and its chain is consistent. */
  lemma NruUlDataHeaderShape(h1: GtpuHeader, h2: GtpuHeader, teid: Teid, container: Bytes)
    requires IsNruUlDataHeader(h1, teid, container) && IsNruUlDataHeader(h2, teid, container)
    ensures h1 == h2
    ensures ChainConsistent(h1)
  {
  }

  class NruTxEntity<DeliveryStatus> {
    const cfg: NruTxConfig
    /** Destination of every PDU, resolved once from `cfg.peerAddr` and `cfg.peerPort`. */
    const peerSockaddr: SockAddr
    /** `nru_packing::pack`: the packed NR RAN Container content, or None when packing fails. */
    const pack: DeliveryStatus -> Option<Bytes>
    /** `gtpu_write_header`: the buffer with the header prepended, or None when writing fails. */
    const writeHeader: (Bytes, GtpuHeader) -> Option<Bytes>
    /** Whether `deep_copy` can allocate a copy of the given T-PDU. */
    const copyOk: Bytes -> bool

    /** Every PDU handed to the network so far, oldest first. */
    ghost var sent: seq<SentPdu>

    constructor (
      cfg: NruTxConfig,
      toSockaddr: (string, Uint16) -> SockAddr,
      pack: DeliveryStatus -> Option<Bytes>,
      writeHeader: (Bytes, GtpuHeader) -> Option<Bytes>,
      copyOk: Bytes -> bool)
      ensures this.cfg == cfg
      ensures peerSockaddr == toSockaddr(cfg.peerAddr, cfg.peerPort)
      ensures this.pack == pack && this.writeHeader == writeHeader && this.copyOk == copyOk
      ensures sent == []
    {
      this.cfg := cfg;
      this.pack := pack;
      this.writeHeader := writeHeader;
      this.copyOk := copyOk;
      peerSockaddr := toSockaddr(cfg.peerAddr, cfg.peerPort);
      sent := [];
    }

    /**
     * Builds the header, attaches the packed delivery status, prepends the
     * header to a copy of the T-PDU and sends the result to the peer. Any of
     * the four failures drops the SDU and sends nothing.
     */
    method HandleSdu(ulMessage: NruUlMessage<DeliveryStatus>) returns (outcome: TxOutcome, ghost hdr: GtpuHeader)
      modifies this
      ensures ulMessage.dataDeliveryStatus.None? ==> outcome == Dropped(MissingDeliveryStatus)
      ensures ulMessage.dataDeliveryStatus.Some? && pack(ulMessage.dataDeliveryStatus.value).None? ==>
                outcome == Dropped(PackFailure)
      ensures ulMessage.dataDeliveryStatus.Some? && pack(ulMessage.dataDeliveryStatus.value).Some? ==>
                IsNruUlDataHeader(hdr, cfg.peerTeid, pack(ulMessage.dataDeliveryStatus.value).value)
      ensures ulMessage.dataDeliveryStatus.Some? && pack(ulMessage.dataDeliveryStatus.value).Some? ==>
                outcome == (
                  if ulMessage.tPdu.Some? && !copyOk(ulMessage.tPdu.value) then Dropped(CopyFailure)
                  else
                    var payload := if ulMessage.tPdu.Some? then ulMessage.tPdu.value else [];
                    match writeHeader(payload, hdr)
                    case None => Dropped(HeaderWriteFailure)
                    case Some(pdu) => Sent(pdu))
      ensures sent == old(sent) + (if outcome.Sent? then [SentPdu(outcome.pdu, peerSockaddr)] else [])
    {
      var h := EMPTY_HEADER;
      h := h.(flags := h.flags.(version := GTPU_FLAGS_VERSION_V1));
      h := h.(flags := h.flags.(protocolType := GTPU_FLAGS_GTP_PROTOCOL));
      h := h.(flags := h.flags.(extHdr := true));
      h := h.(messageType := GTPU_MSG_DATA_PDU);
      h := h.(length := 0);
      h := h.(teid := cfg.peerTeid);
      h := h.(nextExtHdrType := NR_RAN_CONTAINER);

      if ulMessage.dataDeliveryStatus.None? {
        return Dropped(MissingDeliveryStatus), h;
      }

      var extBuf := pack(ulMessage.dataDeliveryStatus.value);
      if extBuf.None? {
        return Dropped(PackFailure), h;
      }

      var ext := GtpuExtensionHeader(NR_RAN_CONTAINER, extBuf.value);
      h := h.(extList := h.extList + [ext]);

      var buf: Bytes := [];
      if ulMessage.tPdu.Some? {
        if !copyOk(ulMessage.tPdu.value) {
          return Dropped(CopyFailure), h;
        }
        buf := ulMessage.tPdu.value;
      }
      var written := writeHeader(buf, h);
      if written.None? {
        return Dropped(HeaderWriteFailure), h;
      }
      outcome, hdr := Sent(written.value), h;
      sent := sent + [SentPdu(written.value, peerSockaddr)];
    }
  }

  /**
   * The entity keeps no state between calls beyond its construction-time
   * fields: for the same collaborator results, handling the same message
   * twice gives the same outcome, and each call adds at most one PDU to what
   * was sent.
   */
  method HandleSduTwice<DeliveryStatus>(e: NruTxEntity<DeliveryStatus>, ulMessage: NruUlMessage<DeliveryStatus>)
    returns (first: TxOutcome, second: TxOutcome)
    modifies e
    ensures first == second
    ensures e.sent == old(e.sent) + (if first.Sent? then [SentPdu(first.pdu, e.peerSockaddr), SentPdu(first.pdu, e.peerSockaddr)] else [])
  {
    ghost var h1, h2;
    first, h1 := e.HandleSdu(ulMessage);
    second, h2 := e.HandleSdu(ulMessage);
    if ulMessage.dataDeliveryStatus.Some? && e.pack(ulMessage.dataDeliveryStatus.value).Some? {
      NruUlDataHeaderShape(h1, h2, e.cfg.peerTeid, e.pack(ulMessage.dataDeliveryStatus.value).value);
    }
  }
}
