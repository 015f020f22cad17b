/** The framed log file of internal/budget/wal.go: [u32 length][u32 crc][payload]. */
module LogFormat {
  import opened Kernel

  type Byte = b: int | 0 <= b < 256

  const WORD := 0x1_0000_0000

  datatype Decoded = Decoded(cmd: Command) | Undecodable

  /** JSON and the checksum, as functions. */
  datatype Codec = Codec(enc: Command -> seq<Byte>, dec: seq<Byte> -> Decoded, crc: seq<Byte> -> int)

  /** A record of `c` can be framed, and read back: its encoding decodes to it, and its size
      and checksum fit a u32. An append refuses a larger payload. */
  predicate Framed(k: Codec, c: Command) {
    k.dec(k.enc(c)) == Decoded(c) && |k.enc(c)| < WORD && 0 <= k.crc(k.enc(c)) < WORD
  }

  /** What is assumed of the codec: it frames every command of the log at hand. */
  predicate Sound(k: Codec, log: seq<Command>) {
    forall c :: c in log ==> Framed(k, c)
  }

  function PutUint32(n: int): seq<Byte>
    requires 0 <= n < WORD
  {
    [n % 256, n / 256 % 256, n / 256 / 256 % 256, n / 256 / 256 / 256]
  }

  function Uint32(b: seq<Byte>): (n: int)
    requires |b| == 4
    ensures 0 <= n < WORD
  {
    (b[0] as int) + 256 * (b[1] as int + 256 * (b[2] as int + 256 * (b[3] as int)))
  }

  lemma Uint32RoundTrip(n: int)
    requires 0 <= n < WORD
    ensures Uint32(PutUint32(n)) == n
    ensures
      var b := PutUint32(n);
      n == b[0] as int + 0x100 * b[1] as int + 0x1_0000 * b[2] as int + 0x100_0000 * b[3] as int
  {
  }

  function Record(k: Codec, c: Command): seq<Byte>
    requires Framed(k, c)
  {
    PutUint32(|k.enc(c)|) + PutUint32(k.crc(k.enc(c))) + k.enc(c)
  }

  ghost function Encode(k: Codec, log: seq<Command>): seq<Byte>
    requires Sound(k, log)
  {
    if log == [] then [] else Record(k, log[0]) + Encode(k, log[1..])
  }

  // ---- the assumption can be met ----

  function IndexOf(log: seq<Command>, c: Command): (i: nat)
    requires c in log
    ensures i < |log| && log[i] == c
  {
    if log[0] == c then 0 else 1 + IndexOf(log[1..], c)
  }

  /** A codec that writes a command as its place in `log`. */
  function TableCodec(log: seq<Command>): Codec
    requires |log| <= WORD
  {
    Codec(c => if c in log then PutUint32(IndexOf(log, c)) else [],
          p => if |p| == 4 && Uint32(p) < |log| then Decoded(log[Uint32(p)]) else Undecodable,
          p => 0)
  }

  /** For every log of up to 2^32 commands there is a codec that frames all of it. */
  lemma SoundCodecExists(log: seq<Command>)
    requires |log| <= WORD
    ensures Sound(TableCodec(log), log)
  {
    forall c | c in log
      ensures Framed(TableCodec(log), c)
    {
      Uint32RoundTrip(IndexOf(log, c));
      hide Uint32, PutUint32;
    }
  }

  datatype Frame = Frame(cmd: Command, end: int) | Torn

  /** The next intact record at `off`, or none: a short header, a short payload, a wrong
      checksum and an undecodable payload all end the log. */
  function NextRecord(k: Codec, file: seq<Byte>, off: nat): (f: Frame)
    ensures f.Frame? ==> off + 8 <= f.end <= |file|
  {
    if off + 8 > |file| then Torn
    else
      var n := Uint32(file[off..off + 4]);
      var want := Uint32(file[off + 4..off + 8]);
      if off + 8 + n > |file| then Torn
      else
        var payload := file[off + 8..off + 8 + n];
        if k.crc(payload) != want then Torn
        else
          match k.dec(payload)
          case Undecodable => Torn
          case Decoded(c) => Frame(c, off + 8 + n)
  }

  datatype Scanned = Scanned(log: seq<Command>, good: nat)

  /** Every intact record from `off`, and the offset where the last one ends. */
  function Scan(k: Codec, file: seq<Byte>, off: nat): Scanned
    decreases |file| - off
  {
    match NextRecord(k, file, off)
    case Torn => Scanned([], off)
    case Frame(c, end) =>
      var rest := Scan(k, file, end);
      Scanned([c] + rest.log, rest.good)
  }

  lemma LowDigit(d: int, x: int, e: int, y: int)
    requires 0 <= d < 256 && 0 <= e < 256 && d + 256 * x == e + 256 * y
    ensures d == e && x == y
  {
  }

  lemma DigitsUnique(a: seq<Byte>, b: seq<Byte>)
    requires |a| == |b| == 4 && Uint32(a) == Uint32(b)
    ensures a == b
  {
    var a2, b2 := a[2] as int + 256 * a[3] as int, b[2] as int + 256 * b[3] as int;
    var a1, b1 := a[1] as int + 256 * a2, b[1] as int + 256 * b2;
    LowDigit(a[0] as int, a1, b[0] as int, b1);
    LowDigit(a[1] as int, a2, b[1] as int, b2);
    LowDigit(a[2] as int, a[3] as int, b[2] as int, b[3] as int);
    hide Uint32;
  }

  lemma Uint32IsPut(b: seq<Byte>, n: int)
    requires |b| == 4 && 0 <= n < WORD
    ensures Uint32(b) == n <==> b == PutUint32(n)
  {
    Uint32RoundTrip(n);
    if Uint32(b) == n {
      DigitsUnique(b, PutUint32(n));
    }
    hide Uint32, PutUint32;
  }

  /** The bytes from `off` to `end` are one record of `c`: the length and the checksum of the
      payload as little-endian words, then the payload, which decodes to `c`. */
  predicate Intact(k: Codec, file: seq<Byte>, off: nat, c: Command, end: nat) {
    && off + 8 <= end <= |file| && end - off - 8 < WORD
    && var p := file[off + 8..end];
    && 0 <= k.crc(p) < WORD && k.dec(p) == Decoded(c)
    && file[off..off + 4] == PutUint32(|p|) && file[off + 4..off + 8] == PutUint32(k.crc(p))
  }

  /** On any file whatever, damaged or not: the scan takes a record exactly where one is intact. */
  lemma FrameIff(k: Codec, file: seq<Byte>, off: nat, c: Command, end: nat)
    ensures NextRecord(k, file, off) == Frame(c, end) <==> Intact(k, file, off, c, end)
  {
    hide Uint32, PutUint32;
    if off + 8 <= |file| {
      var len := file[off..off + 4];
      var n := Uint32(len);
      if off + 8 + n <= |file| && end == off + 8 + n {
        Uint32IsPut(len, n);
        var want := k.crc(file[off + 8..end]);
        if 0 <= want < WORD {
          Uint32IsPut(file[off + 4..off + 8], want);
        }
      } else if off + 8 <= end && end - off - 8 < WORD {
        Uint32IsPut(len, end - off - 8);
      }
    }
  }

  /** Records of `log`, one after the other from `off` to `good`, and no intact record there. */
  ghost predicate Chain(k: Codec, file: seq<Byte>, off: nat, log: seq<Command>, good: nat)
    decreases |log|
  {
    if log == [] then good == off && forall c, end: nat :: !Intact(k, file, off, c, end)
    else exists end: nat :: Intact(k, file, off, log[0], end) && Chain(k, file, end, log[1..], good)
  }

  /** So on any file the scan reads the one chain of intact records that starts there, up to
      the first place where there is none. */
  lemma {:induction false} ScanIff(k: Codec, file: seq<Byte>, off: nat, log: seq<Command>, good: nat)
    ensures Scan(k, file, off) == Scanned(log, good) <==> Chain(k, file, off, log, good)
    decreases |file| - off
  {
    hide Intact, NextRecord;
    forall c, end: nat
      ensures NextRecord(k, file, off) == Frame(c, end) <==> Intact(k, file, off, c, end)
    {
      FrameIff(k, file, off, c, end);
    }
    match NextRecord(k, file, off) {
      case Torn =>
      case Frame(c, end) =>
        assert Intact(k, file, off, c, end);
        var rest := Scan(k, file, end);
        ScanIff(k, file, end, if log == [] then [] else log[1..], good);
        if log != [] {
          assert [c] + rest.log == log <==> c == log[0] && rest.log == log[1..];
        }
    }
  }

  /** How many whole records of `log` fit in `n` bytes. */
  ghost function Fit(k: Codec, log: seq<Command>, n: nat): (j: nat)
    requires Sound(k, log)
    ensures j <= |log|
  {
    if log == [] || n < |Record(k, log[0])| then 0
    else 1 + Fit(k, log[1..], n - |Record(k, log[0])|)
  }

  lemma {:induction false} FitIsLargest(k: Codec, log: seq<Command>, n: nat)
    requires Sound(k, log)
    ensures
      var j := Fit(k, log, n);
      && |Encode(k, log[..j])| <= n
      && (j < |log| ==> n < |Encode(k, log[..j + 1])|)
  {
    var j := Fit(k, log, n);
    if log != [] {
      assert log[..1] == [log[0]] && [log[0]][1..] == [];
      assert Encode(k, [log[0]]) == Record(k, log[0]);
      if |Record(k, log[0])| <= n {
        FitIsLargest(k, log[1..], n - |Record(k, log[0])|);
        assert log[..j][1..] == log[1..][..j - 1];
        if j < |log| {
          assert log[..j + 1][1..] == log[1..][..j];
        }
      }
    }
  }

  lemma {:induction false} EncodeConcat(k: Codec, a: seq<Command>, b: seq<Command>)
    requires Sound(k, a + b)
    ensures Encode(k, a + b) == Encode(k, a) + Encode(k, b)
  {
    if a == [] {
      assert a + b == b;
    } else {
      assert (a + b)[0] == a[0] && (a + b)[1..] == a[1..] + b;
      EncodeConcat(k, a[1..], b);
    }
  }

  /** A slice of a file in three parts. */
  lemma Middle(pre: seq<Byte>, mid: seq<Byte>, post: seq<Byte>)
    ensures |pre + mid + post| == |pre| + |mid| + |post|
    ensures (pre + mid + post)[|pre|..|pre| + |mid|] == mid
  {
  }

  /** Where the length, the checksum and the payload of a record lie. */
  lemma RecordSlices(pre: seq<Byte>, n: seq<Byte>, sum: seq<Byte>, p: seq<Byte>, post: seq<Byte>)
    requires |n| == 4 && |sum| == 4
    ensures
      var file, off := pre + (n + sum + p) + post, |pre|;
      && |file| == off + 8 + |p| + |post|
      && file[off..off + 4] == n && file[off + 4..off + 8] == sum && file[off + 8..off + 8 + |p|] == p
  {
    var file := pre + (n + sum + p) + post;
    Middle(pre, n, sum + p + post);
    assert file == pre + n + (sum + p + post);
    Middle(pre + n, sum, p + post);
    assert file == (pre + n) + sum + (p + post);
    Middle(pre + n + sum, p, post);
    assert file == (pre + n + sum) + p + post;
  }

  lemma ReadsWhole(k: Codec, pre: seq<Byte>, c: Command, post: seq<Byte>)
    requires Framed(k, c)
    ensures NextRecord(k, pre + Record(k, c) + post, |pre|) == Frame(c, |pre| + |Record(k, c)|)
  {
    var p := k.enc(c);
    Uint32RoundTrip(|p|);
    Uint32RoundTrip(k.crc(p));
    assert |PutUint32(|p|)| == 4 && |PutUint32(k.crc(p))| == 4;
    hide Uint32, PutUint32;
    RecordSlices(pre, PutUint32(|p|), PutUint32(k.crc(p)), p, post);
  }

  lemma StopsAtTorn(k: Codec, pre: seq<Byte>, c: Command, post: seq<Byte>, n: nat)
    requires Framed(k, c) && n < |Record(k, c)|
    ensures NextRecord(k, pre + (Record(k, c) + post)[..n], |pre|) == Torn
  {
    var p := k.enc(c);
    var file := pre + (Record(k, c) + post)[..n];
    var off := |pre|;
    if 8 <= n {
      Uint32RoundTrip(|p|);
      assert (Record(k, c) + post)[..n][..4] == PutUint32(|p|);
      assert file[off..off + 4] == PutUint32(|p|);
    }
    hide Uint32, PutUint32;
  }

  /** Reading any byte prefix of an encoded log, from a record boundary, returns exactly
      the commands whose records fit whole, and the offset where they end. */
  lemma {:induction false} PrefixScans(k: Codec, pre: seq<Byte>, log: seq<Command>, n: nat)
    requires Sound(k, log) && n <= |Encode(k, log)|
    ensures
      var j := Fit(k, log, n);
      Scan(k, pre + Encode(k, log)[..n], |pre|) == Scanned(log[..j], |pre| + |Encode(k, log[..j])|)
    decreases |log|
  {
    hide Record, NextRecord;
    var j := Fit(k, log, n);
    var file := pre + Encode(k, log)[..n];
    if log == [] {
      assert file == pre;
    } else {
      var r := Record(k, log[0]);
      var rest := Encode(k, log[1..]);
      if n < |r| {
        StopsAtTorn(k, pre, log[0], rest, n);
        assert log[..0] == [];
      } else {
        var m := n - |r|;
        assert file == pre + r + rest[..m];
        ReadsWhole(k, pre, log[0], rest[..m]);
        PrefixScans(k, pre + r, log[1..], m);
        assert log[..j] == [log[0]] + log[1..][..j - 1];
        assert |Encode(k, log[..j])| == |r| + |Encode(k, log[1..][..j - 1])| by {
          assert log[..j][0] == log[0] && log[..j][1..] == log[1..][..j - 1];
        }
      }
    }
  }

  lemma EncodeGrows(k: Codec, log: seq<Command>, j: nat)
    requires Sound(k, log) && j <= |log|
    ensures |Encode(k, log[..j])| <= |Encode(k, log)|
  {
    EncodeConcat(k, log[..j], log[j..]);
    assert log[..j] + log[j..] == log;
  }

  lemma FitsWhole(k: Codec, log: seq<Command>)
    requires Sound(k, log)
    ensures Fit(k, log, |Encode(k, log)|) == |log|
  {
    hide Fit, Encode, Framed;
    var j := Fit(k, log, |Encode(k, log)|);
    FitIsLargest(k, log, |Encode(k, log)|);
    if j < |log| {
      EncodeGrows(k, log, j + 1);
    }
  }

  lemma WholeAndParts(k: Codec, a: seq<Command>, b: seq<Command>)
    requires Sound(k, a + b)
    ensures Sound(k, a) && Sound(k, b)
  {
    hide Framed;
  }

  /** In particular an undamaged log reads back in full, from any record boundary. */
  lemma BoundaryScans(k: Codec, a: seq<Command>, b: seq<Command>)
    requires Sound(k, a + b)
    ensures Scan(k, Encode(k, a + b), |Encode(k, a)|) == Scanned(b, |Encode(k, a + b)|)
  {
    WholeAndParts(k, a, b);
    hide Scan, Encode, Fit, Sound;
    EncodeConcat(k, a, b);
    var n := |Encode(k, b)|;
    FitsWhole(k, b);
    PrefixScans(k, Encode(k, a), b, n);
    assert Encode(k, b)[..n] == Encode(k, b) && b[..|b|] == b;
  }

  /** Append one record, or nothing when the write fails. A payload whose length does not fit
      the header is refused, so a log built by appends is sound as far as JSON round-trips. */
  method Append(k: Codec, file: seq<Byte>, c: Command, ok: bool, ghost log: seq<Command>)
    returns (after: seq<Byte>, appended: bool)
    requires Sound(k, log) && file == Encode(k, log)
    requires k.dec(k.enc(c)) == Decoded(c) && 0 <= k.crc(k.enc(c)) < WORD
    ensures appended <==> ok && |k.enc(c)| < WORD
    ensures if appended then Sound(k, log + [c]) && after == Encode(k, log + [c]) else after == file
  {
    var payload := k.enc(c);
    if |payload| >= WORD || !ok {
      return file, false;
    }
    after := file + (PutUint32(|payload|) + PutUint32(k.crc(payload)) + payload);
    EncodeConcat(k, log, [c]);
    assert [c][1..] == [];
    return after, true;
  }
}
