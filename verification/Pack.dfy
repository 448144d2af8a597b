/** Packing two binaries onto a host binary and taking them off again (src/bins/ovrd/pack.rs), as byte sequences. */
module Pack {
  import opened EvmTypes

  const U64L: nat := 8
  const PAD_SIZE: nat := 256
  const U64_SPAN: nat := 0x1_0000_0000_0000_0000
  const I64_MAX: nat := 0x7FFF_FFFF_FFFF_FFFF

  /** The machine's byte order; both directions use the same one. */
  datatype Endian = Little | Big

  function Zeros(n: nat): (zeros: Bytes)
    ensures |zeros| == n && forall i :: 0 <= i < n ==> zeros[i] == 0
  {
    seq(n, _ => 0)
  }

  // ---------- lengths as bytes ----------

  function LittleBytes(n: nat, width: nat): (bytes: Bytes)
    ensures |bytes| == width
    decreases width
  {
    if width == 0 then [] else [n % 256] + LittleBytes(n / 256, width - 1)
  }

  function LittleNat(bytes: Bytes): nat {
    if bytes == [] then 0 else bytes[0] + 256 * LittleNat(bytes[1..])
  }

  function Reversed(bytes: Bytes): (r: Bytes)
    ensures |r| == |bytes|
  {
    if bytes == [] then [] else Reversed(bytes[1..]) + [bytes[0]]
  }

  function ToNeBytes(e: Endian, n: nat): Bytes {
    if e.Little? then LittleBytes(n, U64L) else Reversed(LittleBytes(n, U64L))
  }

  function FromNeBytes(e: Endian, bytes: Bytes): nat {
    if e.Little? then LittleNat(bytes) else LittleNat(Reversed(bytes))
  }

  function Power256(k: nat): nat {
    if k == 0 then 1 else 256 * Power256(k - 1)
  }

  lemma {:induction false} LittleRoundTrip(n: nat, width: nat)
    requires n < Power256(width)
    ensures LittleNat(LittleBytes(n, width)) == n
    decreases width
  {
    if width > 0 {
      LittleRoundTrip(n / 256, width - 1);
      assert LittleBytes(n, width)[1..] == LittleBytes(n / 256, width - 1);
    }
  }

  lemma {:induction false} LittleNatBound(bytes: Bytes)
    ensures LittleNat(bytes) < Power256(|bytes|)
  {
    if bytes != [] {
      LittleNatBound(bytes[1..]);
    }
  }

  lemma {:induction false} ReversedConcat(xs: Bytes, y: Byte)
    ensures Reversed(xs + [y]) == [y] + Reversed(xs)
  {
    if xs == [] {
      assert [] + [y] == [y];
    } else {
      assert (xs + [y])[1..] == xs[1..] + [y];
      ReversedConcat(xs[1..], y);
    }
  }

  lemma {:induction false} ReversedTwice(bytes: Bytes)
    ensures Reversed(Reversed(bytes)) == bytes
  {
    if bytes != [] {
      ReversedConcat(Reversed(bytes[1..]), bytes[0]);
      ReversedTwice(bytes[1..]);
    }
  }

  lemma U64Span()
    ensures Power256(U64L) == U64_SPAN
  {
  }

  lemma LengthRoundTrip(e: Endian, n: nat)
    requires n < U64_SPAN
    ensures FromNeBytes(e, ToNeBytes(e, n)) == n && |ToNeBytes(e, n)| == U64L
  {
    U64Span();
    LittleRoundTrip(n, U64L);
    ReversedTwice(LittleBytes(n, U64L));
  }

  /** Byte by byte: the least significant first, or last on a machine of the other kind. */
  lemma {:induction false} LittleDigit(n: nat, width: nat, i: nat)
    requires i < width
    ensures Power256(i) > 0 && LittleBytes(n, width)[i] == n / Power256(i) % 256
    decreases width
  {
    if i > 0 {
      LittleDigit(n / 256, width - 1, i - 1);
      DivideTwice(n, Power256(i - 1));
    }
  }

  lemma DivideTwice(n: nat, d: nat)
    requires d > 0
    ensures n / 256 / d == n / (256 * d)
  {
    var q := n / 256 / d;
    var r := n / 256 % d;
    assert n / 256 == d * q + r;
    assert n == 256 * (d * q + r) + n % 256;
    assert 256 * (d * q + r) == (256 * d) * q + 256 * r;
    DivisionUnique(n, 256 * d, q, 256 * r + n % 256);
  }

  lemma DivisionUnique(n: nat, d: nat, q: nat, r: nat)
    requires d > 0 && n == d * q + r && r < d
    ensures n / d == q
  {
    var p := n / d;
    assert n == d * p + n % d;
    if p < q {
      TimesGrows(d, p + 1, q);
    } else if p > q {
      TimesGrows(d, q + 1, p);
    }
  }

  lemma TimesGrows(d: nat, x: nat, y: nat)
    requires x <= y
    ensures d * x <= d * y
  {
  }

  lemma {:induction false} ReversedDigit(bytes: Bytes, i: nat)
    requires i < |bytes|
    ensures Reversed(bytes)[i] == bytes[|bytes| - 1 - i]
  {
    if i < |bytes| - 1 {
      ReversedDigit(bytes[1..], i);
    }
  }

  lemma NeBytesDigits(n: nat, i: nat)
    requires i < U64L
    ensures Power256(i) > 0
    ensures ToNeBytes(Little, n)[i] == ToNeBytes(Big, n)[U64L - 1 - i] == n / Power256(i) % 256
  {
    LittleDigit(n, U64L, i);
    ReversedDigit(LittleBytes(n, U64L), U64L - 1 - i);
  }

  // ---------- packing ----------

  /** The errors returned; `CapacityOverflow` is the panic of a reader asked for more than memory addresses. */
  datatype Failure = InvalidBinarySize | TooLong | BadSeek | CapacityOverflow

  datatype Result<T> = Ok(value: T) | Err(failure: Failure)

  /** `get_bin_path` turns away a binary too small to hold the three pads and the trailer. */
  predicate BigEnough(file: Bytes) {
    2 * U64L + 3 * PAD_SIZE <= |file|
  }

  /** The host with both binaries appended, each between pads, and their lengths last. */
  method PackInto(e: Endian, host: Bytes, tendermint: Bytes, ovrd: Bytes) returns (r: Result<Bytes>)
    requires |tendermint| < U64_SPAN && |ovrd| < U64_SPAN
    ensures r.Err? <==> !BigEnough(host)
    ensures r.Err? ==> r.failure == InvalidBinarySize
    ensures r.Ok? ==> r.value == Packed(e, host, tendermint, ovrd)
    ensures r.Ok? ==> LaidOut(e, host, tendermint, ovrd, r.value)
  {
    PackedIsLaidOut(e, host, tendermint, ovrd);
    if 2 * U64L + 3 * PAD_SIZE > |host| {
      return Err(InvalidBinarySize);
    }
    var f := host;
    f := f + Zeros(PAD_SIZE);
    f := f + tendermint;
    f := f + Zeros(PAD_SIZE);
    f := f + ovrd;
    f := f + Zeros(PAD_SIZE);
    f := f + ToNeBytes(e, |tendermint|);
    f := f + ToNeBytes(e, |ovrd|);
    r := Ok(f);
  }

  function Packed(e: Endian, host: Bytes, tendermint: Bytes, ovrd: Bytes): Bytes {
    host + Zeros(PAD_SIZE) + tendermint + Zeros(PAD_SIZE) + ovrd + Zeros(PAD_SIZE) +
    ToNeBytes(e, |tendermint|) + ToNeBytes(e, |ovrd|)
  }

  /** A file made of a host, two binaries between pads, and two trailing fields, each at its place. */
  predicate MadeOf(file: Bytes, host: Bytes, pad: Bytes, tendermint: Bytes, ovrd: Bytes, tLen: Bytes, oLen: Bytes) {
    var t := |host| + |pad|;
    var o := t + |tendermint| + |pad|;
    var trailer := o + |ovrd| + |pad|;
    && |file| == trailer + |tLen| + |oLen|
    && file[..|host|] == host && file[t..t + |tendermint|] == tendermint && file[o..o + |ovrd|] == ovrd
    && file[|host|..t] == file[t + |tendermint|..o] == file[o + |ovrd|..trailer] == pad
    && file[trailer..trailer + |tLen|] == tLen && file[trailer + |tLen|..] == oLen
  }

  lemma PartsFound(host: Bytes, pad: Bytes, tendermint: Bytes, ovrd: Bytes, tLen: Bytes, oLen: Bytes)
    ensures MadeOf(host + pad + tendermint + pad + ovrd + pad + tLen + oLen, host, pad, tendermint, ovrd, tLen, oLen)
  {
  }

  /** The host is kept whole; each binary sits between zeroed pads, and the two lengths come last. */
  predicate LaidOut(e: Endian, host: Bytes, tendermint: Bytes, ovrd: Bytes, file: Bytes) {
    MadeOf(file, host, Zeros(PAD_SIZE), tendermint, ovrd, ToNeBytes(e, |tendermint|), ToNeBytes(e, |ovrd|))
  }

  lemma PackedIsLaidOut(e: Endian, host: Bytes, tendermint: Bytes, ovrd: Bytes)
    ensures LaidOut(e, host, tendermint, ovrd, Packed(e, host, tendermint, ovrd))
  {
    PartsFound(host, Zeros(PAD_SIZE), tendermint, ovrd, ToNeBytes(e, |tendermint|), ToNeBytes(e, |ovrd|));
  }

  /** What `Packed` appends after the tendermint bytes and their pad. */
  function Tail(e: Endian, tendermint: Bytes, ovrd: Bytes): Bytes {
    ovrd + Zeros(PAD_SIZE) + ToNeBytes(e, |tendermint|) + ToNeBytes(e, |ovrd|)
  }

  lemma PackedParts(host: Bytes, pad: Bytes, tendermint: Bytes, ovrd: Bytes, tLen: Bytes, oLen: Bytes)
    ensures var file := host + pad + tendermint + pad + ovrd + pad + tLen + oLen;
            && file == (host + pad) + (tendermint + (pad + (ovrd + pad + tLen + oLen)))
            && file == (host + pad + tendermint + pad) + (ovrd + pad + tLen + oLen)
            && file == (host + pad + tendermint + pad + ovrd + pad) + (tLen + oLen)
  {
  }

  lemma Assoc(x: Bytes, y: Bytes, z: Bytes)
    ensures x + y + z == x + (y + z)
  {
  }

  // ---------- unpacking ----------

  /** The files written: tendermint cut to length, ovrd running on to the end of the packed file. */
  datatype Unpacking = Unpacking(tendermint: Bytes, ovrd: Bytes)

  /** Where `SeekFrom::End(-back)` lands, or the error the source returns. */
  function SeekFromEnd(file: Bytes, back: nat): (r: Result<nat>)
    ensures r.Ok? ==> r.value <= |file| && r.value + back == |file|
  {
    if back > I64_MAX then Err(TooLong)
    else if back > |file| then Err(BadSeek)
    else Ok(|file| - back)
  }

  /** `truncate` cuts a longer file and pads a shorter one with zeros. */
  function Truncated(file: Bytes, n: nat): Bytes {
    if n <= |file| then file[..n] else file + Zeros(n - |file|)
  }

  /** Sums of lengths wrap at 64 bits, as an unchecked `usize` sum does. */
  function Wrap(n: nat): nat {
    n % U64_SPAN
  }

  method Unpack(e: Endian, file: Bytes) returns (r: Result<Unpacking>)
    ensures r == Unpacked(e, file)
  {
    if 2 * U64L + 3 * PAD_SIZE > |file| {
      return Err(InvalidBinarySize);
    }
    var at := |file| - 2 * U64L;
    var tendermintLen := FromNeBytes(e, file[at..at + U64L]);
    var ovrdLen := FromNeBytes(e, file[at + U64L..at + 2 * U64L]);
    assert file[at + U64L..at + 2 * U64L] == file[|file| - 8..];
    if ovrdLen > I64_MAX {
      return Err(CapacityOverflow);
    }
    var ovrdAt := SeekFromEnd(file, Wrap(ovrdLen + PAD_SIZE + 2 * U64L));
    if ovrdAt.Err? {
      return Err(ovrdAt.failure);
    }
    var ovrd := file[ovrdAt.value..];
    if tendermintLen > I64_MAX {
      return Err(CapacityOverflow);
    }
    var tendermintAt := SeekFromEnd(file, Wrap(tendermintLen + PAD_SIZE + ovrdLen + PAD_SIZE + 2 * U64L));
    if tendermintAt.Err? {
      return Err(tendermintAt.failure);
    }
    var tendermint := file[tendermintAt.value..];
    tendermint := Truncated(tendermint, tendermintLen);
    r := Ok(Unpacking(tendermint, ovrd));
  }

  function Unpacked(e: Endian, file: Bytes): Result<Unpacking> {
    if !BigEnough(file) then Err(InvalidBinarySize)
    else
      var tendermintLen := FromNeBytes(e, file[|file| - 16..|file| - 8]);
      var ovrdLen := FromNeBytes(e, file[|file| - 8..]);
      if ovrdLen > I64_MAX then Err(CapacityOverflow)
      else
        match SeekFromEnd(file, Wrap(ovrdLen + PAD_SIZE + 2 * U64L))
        case Err(f) => Err(f)
        case Ok(o) =>
          if tendermintLen > I64_MAX then Err(CapacityOverflow)
          else
            match SeekFromEnd(file, Wrap(tendermintLen + PAD_SIZE + ovrdLen + PAD_SIZE + 2 * U64L))
            case Err(f) => Err(f)
            case Ok(t) => Ok(Unpacking(Truncated(file[t..], tendermintLen), file[o..]))
  }

  /**
   Unpacking goes through exactly when the file can hold pads and trailer, both
   lengths read off its end can be allocated, and the places they lead back to
   are in the file. The ovrd file is then everything from its place on; the
   tendermint file is as many bytes as its length says, with zeros past the end.
   */
  lemma UnpacksExactlyWhen(e: Endian, file: Bytes)
    ensures Unpacked(e, file) == Err(InvalidBinarySize) <==> |file| < 784
    ensures |file| >= 784 ==>
              var t := FromNeBytes(e, file[|file| - 16..|file| - 8]);
              var o := FromNeBytes(e, file[|file| - 8..]);
              var back := (t + o + 528) % U64_SPAN;
              && (Unpacked(e, file) == Err(CapacityOverflow) <==>
                  o > I64_MAX || (o + 272 <= I64_MAX && o + 272 <= |file| && t > I64_MAX))
              && (Unpacked(e, file).Ok? <==>
                  && t <= I64_MAX && o + 272 <= I64_MAX && o + 272 <= |file|
                  && back <= I64_MAX && back <= |file|)
              && (Unpacked(e, file).Ok? ==>
                    var files := Unpacked(e, file).value;
                    && files.ovrd == file[|file| - (o + 272)..]
                    && |files.tendermint| == t
                    && forall i :: 0 <= i < t ==>
                         files.tendermint[i] == if i < back then file[|file| - back + i] else 0)
  {
  }

  lemma TrailerReads(e: Endian, host: Bytes, tendermint: Bytes, ovrd: Bytes)
    requires |tendermint| < U64_SPAN && |ovrd| < U64_SPAN
    ensures var file := Packed(e, host, tendermint, ovrd);
            && |file| >= 16
            && FromNeBytes(e, file[|file| - 16..|file| - 8]) == |tendermint|
            && FromNeBytes(e, file[|file| - 8..]) == |ovrd|
  {
    var file := Packed(e, host, tendermint, ovrd);
    var tLen, oLen := ToNeBytes(e, |tendermint|), ToNeBytes(e, |ovrd|);
    PackedParts(host, Zeros(PAD_SIZE), tendermint, ovrd, tLen, oLen);
    LengthRoundTrip(e, |tendermint|);
    LengthRoundTrip(e, |ovrd|);
    var x := host + Zeros(PAD_SIZE) + tendermint + Zeros(PAD_SIZE) + ovrd + Zeros(PAD_SIZE);
    LastTwo(x, tLen, oLen);
  }

  lemma LastTwo(x: Bytes, y: Bytes, z: Bytes)
    requires |y| == 8 && |z| == 8
    ensures var f := x + (y + z); f[|f| - 16..|f| - 8] == y && f[|f| - 8..] == z
  {
  }

  /** Seeking back over a known suffix lands where it starts. */
  lemma SeekLands(x: Bytes, y: Bytes, n: nat)
    requires n == |y| <= I64_MAX
    ensures SeekFromEnd(x + y, Wrap(n)) == Ok(|x|)
    ensures (x + y)[|x|..] == y
  {
  }

  /** What unpacking writes, from the lengths read and the places they lead to. */
  lemma UnpacksAt(e: Endian, file: Bytes, t: nat, o: nat, tAt: nat, oAt: nat)
    requires BigEnough(file) && t <= I64_MAX && o <= I64_MAX
    requires FromNeBytes(e, file[|file| - 16..|file| - 8]) == t && FromNeBytes(e, file[|file| - 8..]) == o
    requires SeekFromEnd(file, Wrap(o + PAD_SIZE + 2 * U64L)) == Ok(oAt)
    requires SeekFromEnd(file, Wrap(t + PAD_SIZE + o + PAD_SIZE + 2 * U64L)) == Ok(tAt)
    ensures tAt <= |file| && oAt <= |file|
    ensures Unpacked(e, file) == Ok(Unpacking(Truncated(file[tAt..], t), file[oAt..]))
  {
  }

  /** Where the two binaries sit in a packed file. */
  lemma PackedSplits(e: Endian, host: Bytes, tendermint: Bytes, ovrd: Bytes)
    ensures var pad, tail, file := Zeros(PAD_SIZE), Tail(e, tendermint, ovrd), Packed(e, host, tendermint, ovrd);
            && file == (host + pad + tendermint + pad) + tail
            && file == (host + pad) + (tendermint + (pad + tail))
            && |tail| == |ovrd| + PAD_SIZE + 2 * U64L
            && tail[..|ovrd|] == ovrd
  {
    PackedParts(host, Zeros(PAD_SIZE), tendermint, ovrd, ToNeBytes(e, |tendermint|), ToNeBytes(e, |ovrd|));
    Assoc(ovrd, Zeros(PAD_SIZE), ToNeBytes(e, |tendermint|));
  }

  /** Unpacking any file that is laid out this way. */
  lemma UnpacksLayout(e: Endian, file: Bytes, lead: Bytes, t: Bytes, pad: Bytes, tail: Bytes, o: nat)
    requires BigEnough(file) && |t| + o + 2 * PAD_SIZE + 2 * U64L <= I64_MAX
    requires |pad| == PAD_SIZE && |tail| == o + PAD_SIZE + 2 * U64L
    requires file == (lead + t + pad) + tail && file == lead + (t + (pad + tail))
    requires FromNeBytes(e, file[|file| - 16..|file| - 8]) == |t| && FromNeBytes(e, file[|file| - 8..]) == o
    ensures Unpacked(e, file) == Ok(Unpacking(t, tail))
  {
    SeekLands(lead + t + pad, tail, o + PAD_SIZE + 2 * U64L);
    SeekLands(lead, t + (pad + tail), |t| + PAD_SIZE + o + PAD_SIZE + 2 * U64L);
    TruncatedPrefix(t, pad + tail);
    UnpacksAt(e, file, |t|, o, |lead|, |lead + t + pad|);
  }

  /**
   Unpacking a packed host gives back the tendermint bytes exactly, and an ovrd
   file that starts with the ovrd bytes and runs on through the pad and the
   trailer. The host may itself be packed already.
   */
  lemma UnpackUndoesPack(e: Endian, host: Bytes, tendermint: Bytes, ovrd: Bytes)
    requires BigEnough(host)
    requires |tendermint| + |ovrd| + 2 * PAD_SIZE + 2 * U64L <= I64_MAX
    ensures Unpacked(e, Packed(e, host, tendermint, ovrd)) == Ok(Unpacking(tendermint, Tail(e, tendermint, ovrd)))
    ensures |ovrd| <= |Tail(e, tendermint, ovrd)| && Tail(e, tendermint, ovrd)[..|ovrd|] == ovrd
  {
    var pad, tail, file := Zeros(PAD_SIZE), Tail(e, tendermint, ovrd), Packed(e, host, tendermint, ovrd);
    TrailerReads(e, host, tendermint, ovrd);
    PackedSplits(e, host, tendermint, ovrd);
    UnpacksLayout(e, file, host + pad, tendermint, pad, tail, |ovrd|);
  }

  lemma TruncatedPrefix(x: Bytes, y: Bytes)
    ensures Truncated(x + y, |x|) == x
  {
  }

  /** Repacking an already packed host unpacks to the newer pair. */
  lemma RepackedHostsUnpackToTheLast(e: Endian, host: Bytes, t1: Bytes, o1: Bytes, t2: Bytes, o2: Bytes)
    requires BigEnough(host)
    requires |t2| + |o2| + 2 * PAD_SIZE + 2 * U64L <= I64_MAX
    ensures var r := Unpacked(e, Packed(e, Packed(e, host, t1, o1), t2, o2));
            r == Ok(Unpacking(t2, Tail(e, t2, o2)))
  {
    UnpackUndoesPack(e, Packed(e, host, t1, o1), t2, o2);
  }
}
