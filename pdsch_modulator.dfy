/**
 * The integer side of the PDSCH modulator: the scrambling initialiser of
 * section 7.3.1.1 of 3GPP TS 38.211, scrambling as an exclusive-or with the
 * pseudo-random sequence, the number of resource elements a codeword fills,
 * and the OFDM symbol mask handed to the resource-grid mapper.
 *
 * The pseudo-random sequence generator is not part of this model: the
 * modulator receives it as a function from (c_init, bit index) to the
 * sequence bit. Modulation into complex samples, scaling, the PRB mask, the
 * DM-RS pattern and the grid mapping itself are floating-point or foreign
 * stages and are left out.
 */
module PdschModulator {
  import opened Integers

  const MAX_NSYMB_PER_SLOT: nat := 14
  const TWO_TO_14: nat := 0x4000
  const TWO_TO_15: nat := 0x8000

  /** Modulation schemes of section 5.1 of 3GPP TS 38.211. */
  datatype ModulationScheme = PiOver2Bpsk | Bpsk | Qpsk | Qam16 | Qam64 | Qam256

  /** Q_m, the number of bits a modulation symbol carries. */
  function BitsPerSymbol(m: ModulationScheme): (qm: nat)
    ensures 1 <= qm <= 8
  {
    match m
    case PiOver2Bpsk => 1
    case Bpsk => 1
    case Qpsk => 2
    case Qam16 => 4
    case Qam64 => 6
    case Qam256 => 8
  }

  /** The configuration entries the integer side depends on. */
  datatype PdschConfig = PdschConfig(
    rnti: Uint16,
    nId: Uint32,
    modulation1: ModulationScheme,
    startSymbolIndex: nat,
    nofSymbols: nat)

  // ---------------------------------------------------------------------------
  // Scrambling initialiser
  // ---------------------------------------------------------------------------

  /** c_init = n_RNTI * 2^15 + q * 2^14 + n_ID, each shift and sum in unsigned 32-bit arithmetic. */
  function CInit(rnti: Uint16, q: Uint32, nId: Uint32): Uint32
  {
    ((rnti * TWO_TO_15) % TWO_TO_32 + (q * TWO_TO_14) % TWO_TO_32 + nId) % TWO_TO_32
  }

  /**
   * For a codeword index below 2 and a scrambling identity below 2^14, no
   * sum wraps, and the RNTI, the codeword index and the scrambling identity
   * are read back from c_init's bit fields.
   */
  lemma CInitFields(rnti: Uint16, q: Uint32, nId: Uint32)
    requires q < 2 && nId < TWO_TO_14
    ensures CInit(rnti, q, nId) == rnti * TWO_TO_15 + q * TWO_TO_14 + nId
    ensures CInit(rnti, q, nId) < 0x8000_0000
    ensures CInit(rnti, q, nId) / TWO_TO_15 == rnti
    ensures (CInit(rnti, q, nId) / TWO_TO_14) % 2 == q
    ensures CInit(rnti, q, nId) % TWO_TO_14 == nId
  {
    var c := rnti * TWO_TO_15 + q * TWO_TO_14 + nId;
    assert rnti * TWO_TO_15 <= 0xFFFF * TWO_TO_15;
    assert c < 0x8000_0000;
    assert CInit(rnti, q, nId) == c;
    DivModUnique(c, TWO_TO_15, rnti, q * TWO_TO_14 + nId);
    DivModUnique(c, TWO_TO_14, rnti * 2 + q, nId);
    DivModUnique(rnti * 2 + q, 2, rnti, q);
  }

  /** Distinct (RNTI, codeword, scrambling identity) triples in range give distinct initial states. */
  lemma CInitInjective(rnti1: Uint16, q1: Uint32, nId1: Uint32, rnti2: Uint16, q2: Uint32, nId2: Uint32)
    requires q1 < 2 && nId1 < TWO_TO_14 && q2 < 2 && nId2 < TWO_TO_14
    requires CInit(rnti1, q1, nId1) == CInit(rnti2, q2, nId2)
    ensures rnti1 == rnti2 && q1 == q2 && nId1 == nId2
  {
    CInitFields(rnti1, q1, nId1);
    CInitFields(rnti2, q2, nId2);
  }

  // ---------------------------------------------------------------------------
  // Scrambling
  // ---------------------------------------------------------------------------

  /** The codeword XOR-ed with the pseudo-random sequence that `cInit` selects. */
  function Scrambled(b: seq<bool>, cInit: Uint32, prbs: (Uint32, nat) -> bool): (r: seq<bool>)
    ensures |r| == |b|
  {
    seq(|b|, i requires 0 <= i < |b| => b[i] != prbs(cInit, i))
  }

  /** Scrambling twice with the same initial state restores the codeword. */
  lemma DescrambleRoundTrip(b: seq<bool>, cInit: Uint32, prbs: (Uint32, nat) -> bool)
    ensures Scrambled(Scrambled(b, cInit, prbs), cInit, prbs) == b
  {
    var once := Scrambled(b, cInit, prbs);
    var twice := Scrambled(once, cInit, prbs);
    forall i | 0 <= i < |b| ensures twice[i] == b[i] {
      assert once[i] == (b[i] != prbs(cInit, i));
    }
  }

  // ---------------------------------------------------------------------------
  // Resource elements and symbol mask
  // ---------------------------------------------------------------------------

  /** The number of modulation symbols a codeword of `nofBits` fills; leftover bits are ignored. */
  function NofRe(nofBits: nat, qm: nat): (nofRe: nat)
    requires qm > 0
    ensures nofRe * qm <= nofBits < nofRe * qm + qm
  {
    nofBits / qm
  }

  type SymbolSlotMask = s: seq<bool> | |s| == MAX_NSYMB_PER_SLOT witness seq(MAX_NSYMB_PER_SLOT, _ => false)

  /** The mask with positions [start, end) set among the first n. */
  function RangeMask(n: nat, start: nat, end: nat): (mask: seq<bool>)
    ensures |mask| == n
  {
    seq(n, i => start <= i < end)
  }

  /** The number of set entries. */
  function Count(mask: seq<bool>): nat
  {
    if mask == [] then 0 else Count(mask[..|mask| - 1]) + (if mask[|mask| - 1] then 1 else 0)
  }

  /** A range mask over the first n positions sets as many entries as the range has inside [0, n). */
  lemma {:induction false} RangeMaskCount(n: nat, start: nat, end: nat)
    requires start <= end
    ensures Count(RangeMask(n, start, end)) == if n <= start then 0 else if n <= end then n - start else end - start
    decreases n
  {
    if n > 0 {
      var mask := RangeMask(n, start, end);
      assert mask[..n - 1] == RangeMask(n - 1, start, end);
      RangeMaskCount(n - 1, start, end);
    }
  }

  class PdschModulatorImpl {
    /** `temp_b_hat`: the scrambled codeword of the last transmission. */
    var tempBHat: seq<bool>
    /** Capacity of `temp_pdsch_symbols`, in resource elements. */
    const maxNofRe: nat
    /** Bit `i` of the pseudo-random sequence initialised with `c_init`. */
    const prbs: (Uint32, nat) -> bool

    constructor (maxNofRe: nat, prbs: (Uint32, nat) -> bool)
      ensures this.maxNofRe == maxNofRe && this.prbs == prbs && tempBHat == []
    {
      this.maxNofRe := maxNofRe;
      this.prbs := prbs;
      tempBHat := [];
    }

    /** Scrambles codeword `b` with codeword index `q` into the member buffer and returns it. */
    method Scramble(b: seq<bool>, q: Uint32, config: PdschConfig) returns (bHat: seq<bool>)
      modifies this
      ensures tempBHat == bHat
      ensures bHat == Scrambled(b, CInit(config.rnti, q, config.nId), prbs)
      ensures |bHat| == |b|
    {
      var cInit := CInit(config.rnti, q, config.nId);
      tempBHat := Scrambled(b, cInit, prbs);
      bHat := tempBHat;
    }

    /** The OFDM symbols the transmission occupies, exactly [start, start + nofSymbols) of the slot. */
    method Map(config: PdschConfig) returns (symbols: SymbolSlotMask)
      requires config.startSymbolIndex + config.nofSymbols <= MAX_NSYMB_PER_SLOT
      ensures forall i :: 0 <= i < MAX_NSYMB_PER_SLOT ==>
                (symbols[i] <==> config.startSymbolIndex <= i < config.startSymbolIndex + config.nofSymbols)
      ensures Count(symbols) == config.nofSymbols
    {
      var startSymbolIndex := config.startSymbolIndex;
      var endSymbolIndex := config.startSymbolIndex + config.nofSymbols;
      symbols := RangeMask(MAX_NSYMB_PER_SLOT, startSymbolIndex, endSymbolIndex);
      RangeMaskCount(MAX_NSYMB_PER_SLOT, startSymbolIndex, endSymbolIndex);
    }

    /**
     * Processes the single codeword of a PDSCH transmission: scrambles it
     * with codeword index 0, counts the modulation symbols it fills and
     * builds the symbol mask for the mapper.
     */
    method Modulate(codewords: seq<seq<bool>>, config: PdschConfig) returns (nofRe: nat, symbols: SymbolSlotMask)
      requires |codewords| == 1
      requires NofRe(|codewords[0]|, BitsPerSymbol(config.modulation1)) <= maxNofRe
      requires config.startSymbolIndex + config.nofSymbols <= MAX_NSYMB_PER_SLOT
      modifies this
      ensures nofRe == NofRe(|codewords[0]|, BitsPerSymbol(config.modulation1))
      ensures nofRe <= maxNofRe
      ensures tempBHat == Scrambled(codewords[0], CInit(config.rnti, 0, config.nId), prbs)
      ensures Count(symbols) == config.nofSymbols
      ensures forall i :: 0 <= i < MAX_NSYMB_PER_SLOT ==>
                (symbols[i] <==> config.startSymbolIndex <= i < config.startSymbolIndex + config.nofSymbols)
    {
      var qm := BitsPerSymbol(config.modulation1);
      var nofBits := |codewords[0]|;
      nofRe := nofBits / qm;
      var bHat := Scramble(codewords[0], 0, config);
      symbols := Map(config);
    }
  }
}
