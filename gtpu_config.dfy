/**
 * Configuration records of GTP-U NG-U and NR-U tunnels and their textual
 * renderings (the `fmt::formatter` specialisations of gtpu_config.h).
 *
 * How a TEID, a duration in milliseconds and a port number are themselves
 * printed is not part of this model: each rendering takes those per-field
 * renderings as a `FieldFormat` of abstract string functions.
 */
module GtpuConfig {
  import opened Integers

  /** UDP port for encapsulated T-PDUs (section 4.4.2.3 of 3GPP TS 29.281). */
  const GTPU_PORT: Uint16 := 2152

  /** A 32-bit tunnel endpoint identifier (`gtpu_teid_t`). */
  datatype Teid = Teid(value: Uint32)

  datatype NguRxConfig = NguRxConfig(localTeid: Teid, tReorderingMs: int)
  datatype NguTxConfig = NguTxConfig(peerTeid: Teid, peerAddr: string, peerPort: Uint16)
  datatype NguConfig = NguConfig(rx: NguRxConfig, tx: NguTxConfig)

  /** The NR-U receive side carries a local TEID and no reordering timer. */
  datatype NruRxConfig = NruRxConfig(localTeid: Teid)
  datatype NruTxConfig = NruTxConfig(peerTeid: Teid, peerAddr: string, peerPort: Uint16)
  datatype NruConfig = NruConfig(rx: NruRxConfig, tx: NruTxConfig)

  /** An NG-U receive config built from its local TEID, with `t_reordering` left at its default. */
  function DefaultNguRxConfig(localTeid: Teid): (c: NguRxConfig)
    ensures c.localTeid == localTeid
    ensures c.tReorderingMs == 0
  {
    NguRxConfig(localTeid, 0)
  }

  /** How each field value is printed: an abstract rendering per field type. */
  datatype FieldFormat = FieldFormat(
    teid: Teid -> string,
    millis: int -> string,
    port: Uint16 -> string)

  // ---------------------------------------------------------------------------
  // The renderings
  // ---------------------------------------------------------------------------

  function FormatNguRx(f: FieldFormat, c: NguRxConfig): string
  {
    "local_teid=" + f.teid(c.localTeid) + " t_reordering=" + f.millis(c.tReorderingMs)
  }

  function FormatNguTx(f: FieldFormat, c: NguTxConfig): string
  {
    "peer_teid=" + f.teid(c.peerTeid) + " peer_addr=" + c.peerAddr + " peer_port=" + f.port(c.peerPort)
  }

  function FormatNgu(f: FieldFormat, c: NguConfig): string
  {
    FormatNguRx(f, c.rx) + " " + FormatNguTx(f, c.tx)
  }

  function FormatNruRx(f: FieldFormat, c: NruRxConfig): string
  {
    "local_teid=" + f.teid(c.localTeid)
  }

  function FormatNruTx(f: FieldFormat, c: NruTxConfig): string
  {
    "peer_teid=" + f.teid(c.peerTeid) + " peer_addr=" + c.peerAddr + " peer_port=" + f.port(c.peerPort)
  }

  function FormatNru(f: FieldFormat, c: NruConfig): string
  {
    FormatNruRx(f, c.rx) + " " + FormatNruTx(f, c.tx)
  }

  // ---------------------------------------------------------------------------
  // Reading a rendering back: splitting at spaces
  // ---------------------------------------------------------------------------

  /** The space-separated fields of `s`, empty fields included. */
  function Fields(s: string): (r: seq<string>)
    ensures |r| >= 1
    ensures forall k :: 0 <= k < |r| ==> ' ' !in r[k]
    decreases |s|
  {
    if s == [] then [[]]
    else if s[0] == ' ' then [[]] + Fields(s[1..])
    else
      var rest := Fields(s[1..]);
      [[s[0]] + rest[0]] + rest[1..]
  }

  /** Joins fields with one space between neighbours. */
  function Join(fields: seq<string>): string
    requires |fields| >= 1
    decreases |fields|
  {
    if |fields| == 1 then fields[0] else fields[0] + " " + Join(fields[1..])
  }

  /** Splitting loses nothing: joining the fields gives the string back. */
  lemma {:induction false} JoinFields(s: string)
    ensures Join(Fields(s)) == s
    decreases |s|
  {
    if s == [] {
    } else if s[0] == ' ' {
      JoinFields(s[1..]);
      JoinCons([], Fields(s[1..]));
      assert [' '] + s[1..] == s;
    } else {
      var rest := Fields(s[1..]);
      JoinFields(s[1..]);
      var r := [[s[0]] + rest[0]] + rest[1..];
      if |rest| == 1 {
        assert Join(r) == [s[0]] + rest[0];
        assert [s[0]] + s[1..] == s;
      } else {
        assert r[1..] == rest[1..];
        assert Join(rest) == rest[0] + " " + Join(rest[1..]);
        assert Join(r) == [s[0]] + rest[0] + " " + Join(rest[1..]);
        assert [s[0]] + s[1..] == s;
      }
    }
  }

  lemma JoinCons(w: string, fields: seq<string>)
    requires |fields| >= 1
    ensures Join([w] + fields) == w + " " + Join(fields)
  {
    assert ([w] + fields)[1..] == fields;
  }

  /** A string without spaces is a single field. */
  lemma {:induction false} FieldsOfWord(w: string)
    requires ' ' !in w
    ensures Fields(w) == [w]
    decreases |w|
  {
    if w != [] {
      FieldsOfWord(w[1..]);
      assert [w[0]] + w[1..] == w;
    }
  }

  /** Splitting distributes over a space-join. */
  lemma {:induction false} FieldsOfJoin(a: string, b: string)
    ensures Fields(a + " " + b) == Fields(a) + Fields(b)
    decreases |a|
  {
    var s := a + " " + b;
    if a == [] {
      assert s == [' '] + b;
      assert s[1..] == b;
    } else {
      assert s[0] == a[0];
      assert s[1..] == a[1..] + " " + b;
      FieldsOfJoin(a[1..], b);
      if a[0] == ' ' {
        assert Fields(s) == [[]] + (Fields(a[1..]) + Fields(b));
        assert Fields(a) == [[]] + Fields(a[1..]);
      } else {
        ExtendFirstField(a[0], Fields(a[1..]), Fields(b));
      }
    }
  }

  /** Prefixing a character to the first field commutes with appending further fields. */
  lemma ExtendFirstField(c: char, rest: seq<string>, fb: seq<string>)
    requires |rest| >= 1
    ensures [[c] + (rest + fb)[0]] + (rest + fb)[1..] == ([[c] + rest[0]] + rest[1..]) + fb
  {
    var joined := rest + fb;
    assert joined[0] == rest[0];
    assert joined[1..] == rest[1..] + fb;
  }

  // ---------------------------------------------------------------------------
  // Properties of the renderings
  // ---------------------------------------------------------------------------

  /** No per-field rendering contains a space. */
  ghost predicate SpaceFree(f: FieldFormat)
  {
    && (forall t :: ' ' !in f.teid(t))
    && (forall d :: ' ' !in f.millis(d))
    && (forall p :: ' ' !in f.port(p))
  }

  /** Distinct field values render differently. */
  ghost predicate Injective(f: FieldFormat)
  {
    && (forall t1, t2 :: f.teid(t1) == f.teid(t2) ==> t1 == t2)
    && (forall d1, d2 :: f.millis(d1) == f.millis(d2) ==> d1 == d2)
    && (forall p1, p2 :: f.port(p1) == f.port(p2) ==> p1 == p2)
  }

  /** The NG-U and NR-U TX renderings share one layout. */
  lemma TxRenderingsAgree(f: FieldFormat, ngu: NguTxConfig, nru: NruTxConfig)
    requires ngu.peerTeid == nru.peerTeid && ngu.peerAddr == nru.peerAddr && ngu.peerPort == nru.peerPort
    ensures FormatNguTx(f, ngu) == FormatNruTx(f, nru)
  {
  }

  /**
   * A whole NG-U config renders as five `key=value` fields: the RX rendering,
   * one space, then the TX rendering.
   */
  lemma NguFields(f: FieldFormat, c: NguConfig)
    requires SpaceFree(f) && ' ' !in c.tx.peerAddr
    ensures Fields(FormatNgu(f, c)) == [
      "local_teid=" + f.teid(c.rx.localTeid),
      "t_reordering=" + f.millis(c.rx.tReorderingMs),
      "peer_teid=" + f.teid(c.tx.peerTeid),
      "peer_addr=" + c.tx.peerAddr,
      "peer_port=" + f.port(c.tx.peerPort)]
  {
    var rx := FormatNguRx(f, c.rx);
    NguRxKeys(f.teid(c.rx.localTeid), f.millis(c.rx.tReorderingMs));
    TwoFields("local_teid=", f.teid(c.rx.localTeid), "t_reordering=", f.millis(c.rx.tReorderingMs));
    var tx := FormatNguTx(f, c.tx);
    TxRenderingFields(f, c.tx.peerTeid, c.tx.peerAddr, c.tx.peerPort);
    FieldsOfJoin(rx, tx);
  }

  /** A whole NR-U config renders as four `key=value` fields, with no reordering timer. */
  lemma NruFields(f: FieldFormat, c: NruConfig)
    requires SpaceFree(f) && ' ' !in c.tx.peerAddr
    ensures Fields(FormatNru(f, c)) == [
      "local_teid=" + f.teid(c.rx.localTeid),
      "peer_teid=" + f.teid(c.tx.peerTeid),
      "peer_addr=" + c.tx.peerAddr,
      "peer_port=" + f.port(c.tx.peerPort)]
  {
    var rx := KeyValue("local_teid=", f.teid(c.rx.localTeid));
    assert FormatNruRx(f, c.rx) == rx;
    var tx := FormatNruTx(f, c.tx);
    TxRenderingFields(f, c.tx.peerTeid, c.tx.peerAddr, c.tx.peerPort);
    FieldsOfJoin(rx, tx);
  }

  /** `key` followed by `value`, a single field when neither holds a space. */
  function KeyValue(key: string, value: string): (w: string)
    requires ' ' !in key && ' ' !in value
    ensures Fields(w) == [key + value]
  {
    var w := key + value;
    assert forall i :: 0 <= i < |w| ==> w[i] != ' ' by {
      forall i | 0 <= i < |w| ensures w[i] != ' ' {
        if i < |key| { assert w[i] == key[i]; } else { assert w[i] == value[i - |key|]; }
      }
    }
    FieldsOfWord(w);
    w
  }

  /** The TX rendering shared by both tunnel variants splits into its three fields. */
  lemma TxRenderingFields(f: FieldFormat, peerTeid: Teid, peerAddr: string, peerPort: Uint16)
    requires SpaceFree(f) && ' ' !in peerAddr
    ensures Fields("peer_teid=" + f.teid(peerTeid) + " peer_addr=" + peerAddr + " peer_port=" + f.port(peerPort))
         == ["peer_teid=" + f.teid(peerTeid), "peer_addr=" + peerAddr, "peer_port=" + f.port(peerPort)]
  {
    var t, p := f.teid(peerTeid), f.port(peerPort);
    TxKeys(t, peerAddr, p);
    ThreeFields("peer_teid=", t, "peer_addr=", peerAddr, "peer_port=", p);
  }

  /** The TX keys with their leading spaces split off. */
  lemma TxKeys(t: string, a: string, p: string)
    ensures "peer_teid=" + t + " peer_addr=" + a + " peer_port=" + p
         == "peer_teid=" + t + (" " + "peer_addr=") + a + (" " + "peer_port=") + p
  {
    assert " " + "peer_addr=" == " peer_addr=";
    assert " " + "peer_port=" == " peer_port=";
  }

  /** Three space-free `key value` pairs joined by single spaces split back into those pairs. */
  lemma ThreeFields(k1: string, v1: string, k2: string, v2: string, k3: string, v3: string)
    requires ' ' !in k1 && ' ' !in v1 && ' ' !in k2 && ' ' !in v2 && ' ' !in k3 && ' ' !in v3
    ensures Fields(k1 + v1 + (" " + k2) + v2 + (" " + k3) + v3) == [k1 + v1, k2 + v2, k3 + v3]
  {
    var w1 := KeyValue(k1, v1);
    var w2 := KeyValue(k2, v2);
    var w3 := KeyValue(k3, v3);
    WordsFields(w1, w2, w3);
    Regroup3(k1, v1, k2, v2, k3, v3);
  }

  /** Moves the separating spaces of three `key value` pairs out of the keys. */
  lemma Regroup3(k1: string, v1: string, k2: string, v2: string, k3: string, v3: string)
    ensures k1 + v1 + (" " + k2) + v2 + (" " + k3) + v3 == (k1 + v1) + " " + ((k2 + v2) + " " + (k3 + v3))
  {
  }

  /** Three single-field words joined by spaces split into those words. */
  lemma WordsFields(w1: string, w2: string, w3: string)
    requires Fields(w1) == [w1] && Fields(w2) == [w2] && Fields(w3) == [w3]
    ensures Fields(w1 + " " + (w2 + " " + w3)) == [w1, w2, w3]
  {
    FieldsOfJoin(w2, w3);
    FieldsOfJoin(w1, w2 + " " + w3);
  }

  /** Two space-free `key value` pairs joined by a space split back into those pairs. */
  lemma TwoFields(k1: string, v1: string, k2: string, v2: string)
    requires ' ' !in k1 && ' ' !in v1 && ' ' !in k2 && ' ' !in v2
    ensures Fields(k1 + v1 + (" " + k2) + v2) == [k1 + v1, k2 + v2]
  {
    var w1 := KeyValue(k1, v1);
    var w2 := KeyValue(k2, v2);
    FieldsOfJoin(w1, w2);
    Regroup2(k1, v1, k2, v2);
  }

  /** Moves the separating space of two `key value` pairs out of the key. */
  lemma Regroup2(k1: string, v1: string, k2: string, v2: string)
    ensures k1 + v1 + (" " + k2) + v2 == (k1 + v1) + " " + (k2 + v2)
  {
  }

  /** The NG-U RX keys with the leading space split off. */
  lemma NguRxKeys(t: string, m: string)
    ensures "local_teid=" + t + " t_reordering=" + m == "local_teid=" + t + (" " + "t_reordering=") + m
  {
    assert " " + "t_reordering=" == " t_reordering=";
  }

  /** Joining the five NG-U fields with single spaces rebuilds the NG-U rendering. */
  lemma NguFieldsJoin(f: FieldFormat, c: NguConfig)
    requires SpaceFree(f) && ' ' !in c.tx.peerAddr
    ensures Join([
      "local_teid=" + f.teid(c.rx.localTeid),
      "t_reordering=" + f.millis(c.rx.tReorderingMs),
      "peer_teid=" + f.teid(c.tx.peerTeid),
      "peer_addr=" + c.tx.peerAddr,
      "peer_port=" + f.port(c.tx.peerPort)]) == FormatNgu(f, c)
  {
    NguFields(f, c);
    JoinFields(FormatNgu(f, c));
  }

  /** Joining the four NR-U fields with single spaces rebuilds the NR-U rendering. */
  lemma NruFieldsJoin(f: FieldFormat, c: NruConfig)
    requires SpaceFree(f) && ' ' !in c.tx.peerAddr
    ensures Join([
      "local_teid=" + f.teid(c.rx.localTeid),
      "peer_teid=" + f.teid(c.tx.peerTeid),
      "peer_addr=" + c.tx.peerAddr,
      "peer_port=" + f.port(c.tx.peerPort)]) == FormatNru(f, c)
  {
    NruFields(f, c);
    JoinFields(FormatNru(f, c));
  }

  /** Removing a common key prefix keeps values apart. */
  lemma StripKey(key: string, v1: string, v2: string)
    requires key + v1 == key + v2
    ensures v1 == v2
  {
    assert v1 == (key + v1)[|key|..];
    assert v2 == (key + v2)[|key|..];
  }

  /**
   * With injective, space-free field renderings and space-free peer
   * addresses, two NG-U configs that render alike are equal.
   */
  lemma NguRenderingInjective(f: FieldFormat, c1: NguConfig, c2: NguConfig)
    requires SpaceFree(f) && Injective(f)
    requires ' ' !in c1.tx.peerAddr && ' ' !in c2.tx.peerAddr
    requires FormatNgu(f, c1) == FormatNgu(f, c2)
    ensures c1 == c2
  {
    NguFields(f, c1);
    NguFields(f, c2);
    var s1, s2 := Fields(FormatNgu(f, c1)), Fields(FormatNgu(f, c2));
    StripKey("local_teid=", f.teid(c1.rx.localTeid), f.teid(c2.rx.localTeid));
    StripKey("t_reordering=", f.millis(c1.rx.tReorderingMs), f.millis(c2.rx.tReorderingMs));
    StripKey("peer_teid=", f.teid(c1.tx.peerTeid), f.teid(c2.tx.peerTeid));
    StripKey("peer_addr=", c1.tx.peerAddr, c2.tx.peerAddr);
    StripKey("peer_port=", f.port(c1.tx.peerPort), f.port(c2.tx.peerPort));
  }

  /**
   * With injective, space-free field renderings and space-free peer
   * addresses, two NR-U configs that render alike are equal.
   */
  lemma NruRenderingInjective(f: FieldFormat, c1: NruConfig, c2: NruConfig)
    requires SpaceFree(f) && Injective(f)
    requires ' ' !in c1.tx.peerAddr && ' ' !in c2.tx.peerAddr
    requires FormatNru(f, c1) == FormatNru(f, c2)
    ensures c1 == c2
  {
    NruFields(f, c1);
    NruFields(f, c2);
    StripKey("local_teid=", f.teid(c1.rx.localTeid), f.teid(c2.rx.localTeid));
    StripKey("peer_teid=", f.teid(c1.tx.peerTeid), f.teid(c2.tx.peerTeid));
    StripKey("peer_addr=", c1.tx.peerAddr, c2.tx.peerAddr);
    StripKey("peer_port=", f.port(c1.tx.peerPort), f.port(c2.tx.peerPort));
  }
}
