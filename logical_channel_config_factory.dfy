/**
 * Default logical channel configuration chosen by the scheduler for a
 * logical channel, depending only on whether it carries a signalling radio
 * bearer (SRB) or a data radio bearer (DRB).
 *
 * Which LCIDs are SRBs (`is_srb`) is decided elsewhere; here it is the
 * parameter `isSrb`.
 */
module LogicalChannelConfigFactory {
  import opened Integers

  /** A logical channel ID (`lcid_t`). */
  type Lcid = Uint16

  /** A logical channel group ID (`lcg_id_t`, 0 to 7). */
  type LcgId = x: int | 0 <= x <= 7

  datatype LogicalChannelConfig = LogicalChannelConfig(
    lcid: Lcid,
    priority: nat,
    lcGroup: LcgId,
    lcSrMask: bool,
    lcSrDelayTimerApplied: bool)

  /**
   * SRBs get priority 1 in group 0, every other channel priority 2 in group 1;
   * the SR mask and the SR delay timer are off.
   */
  function CreateDefaultLogicalChannelConfig(lcid: Lcid, isSrb: Lcid -> bool): (lc: LogicalChannelConfig)
    ensures lc.lcid == lcid
    ensures lc.priority == lc.lcGroup + 1
    ensures lc.lcGroup == 0 <==> isSrb(lcid)
    ensures lc.priority in {1, 2}
    ensures !lc.lcSrMask && !lc.lcSrDelayTimerApplied
  {
    LogicalChannelConfig(
      lcid := lcid,
      priority := if isSrb(lcid) then 1 else 2,
      lcGroup := if isSrb(lcid) then 0 else 1,
      lcSrMask := false,
      lcSrDelayTimerApplied := false)
  }

  /**
   * A smaller priority value is served first (section 5.4.3.1 of 3GPP
   * TS 38.321): by default every SRB outranks every DRB, and channels of the
   * same class share priority and group.
   */
  lemma SrbsOutrankOtherChannels(a: Lcid, b: Lcid, isSrb: Lcid -> bool)
    ensures isSrb(a) && !isSrb(b) ==>
              CreateDefaultLogicalChannelConfig(a, isSrb).priority < CreateDefaultLogicalChannelConfig(b, isSrb).priority
    ensures isSrb(a) == isSrb(b) ==>
              CreateDefaultLogicalChannelConfig(a, isSrb).priority == CreateDefaultLogicalChannelConfig(b, isSrb).priority
              && CreateDefaultLogicalChannelConfig(a, isSrb).lcGroup == CreateDefaultLogicalChannelConfig(b, isSrb).lcGroup
  {
  }
}
