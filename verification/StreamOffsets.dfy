/** Redis stream IDs and the 64-bit offsets that encode them (pkg/redisbroker/history.go). */
module StreamOffsets {
  import opened Options
  import opened Decimals

  const SEQ_SPAN: nat := 0x10_0000       // 2^20
  const TS_SPAN: nat := 0x1000_0000_0000 // 2^44

  /** Bitwise or of two non-negative numbers. */
  function BitOr(a: nat, b: nat): nat
    decreases a + b
  {
    if a == 0 then b else if b == 0 then a else
    2 * BitOr(a / 2, b / 2) + (if a % 2 == 1 || b % 2 == 1 then 1 else 0)
  }

  function Pow2(k: nat): nat {
    if k == 0 then 1 else 2 * Pow2(k - 1)
  }

  /** ts << 20 | seq on 64-bit words. */
  function Encode(ts: nat, seq_: nat): nat {
    BitOr(ts * SEQ_SPAN % TWO64, seq_)
  }

  function StreamStartID(since: nat): string {
    if since == 0 then "0" else Format(since / SEQ_SPAN) + "-" + Format(since % SEQ_SPAN)
  }

  /** The position of the first "-", if any. */
  function Dash(id: string): Option<nat> {
    if id == "" then None
    else if id[0] == '-' then Some(0)
    else match Dash(id[1..]) case None => None case Some(i) => Some(i + 1)
  }

  lemma {:induction false} DashIsFirst(id: string)
    ensures Dash(id).None? <==> '-' !in id
    ensures Dash(id).Some? ==> Dash(id).value < |id| && id[Dash(id).value] == '-'
    ensures Dash(id).Some? ==> '-' !in id[..Dash(id).value]
  {
    if id != "" && id[0] != '-' {
      DashIsFirst(id[1..]);
      assert id == [id[0]] + id[1..];
      if Dash(id).Some? {
        assert id[..Dash(id).value] == [id[0]] + id[1..][..Dash(id).value - 1];
      }
    }
  }

  function ParseStreamOffset(id: string): nat {
    DashIsFirst(id);
    match Dash(id)
    case None => 0
    case Some(i) =>
      var ts, s := ParseUint(id[..i]), ParseUint(id[i + 1..]);
      if ts.None? || s.None? then 0 else Encode(ts.value, s.value)
  }

  function Shift(x: nat, k: nat): nat {
    if k == 0 then x else 2 * Shift(x, k - 1)
  }

  lemma {:induction false} ShiftMultiplies(x: nat, k: nat)
    ensures Shift(x, k) == x * Pow2(k)
  {
    if k > 0 {
      ShiftMultiplies(x, k - 1);
      var p := Pow2(k - 1);
      assert 2 * (x * p) == x * (2 * p);
    }
  }

  /** Or works on the bits from k up and on those below k independently. */
  lemma {:induction false} OrSplits(x: nat, u: nat, y: nat, v: nat, k: nat)
    requires u < Pow2(k) && v < Pow2(k)
    ensures BitOr(Shift(x, k) + u, Shift(y, k) + v) == Shift(BitOr(x, y), k) + BitOr(u, v)
    decreases k
  {
    if k > 0 {
      var u1, i, v1, j := u / 2, u % 2, v / 2, v % 2;
      var a, b := Shift(x, k - 1) + u1, Shift(y, k - 1) + v1;
      OrSplits(x, u1, y, v1, k - 1);
      assert 2 * a + i == Shift(x, k) + u && 2 * b + j == Shift(y, k) + v;
      OrOfBits(a, i, b, j);
      assert u == 2 * u1 + i && v == 2 * v1 + j;
      OrOfBits(u1, i, v1, j);
    }
  }

  /** The recursion of or, also where an operand is zero. */
  lemma {:induction false} OrOfBits(a: nat, i: nat, b: nat, j: nat)
    requires i < 2 && j < 2
    ensures BitOr(2 * a + i, 2 * b + j) == 2 * BitOr(a, b) + if i == 1 || j == 1 then 1 else 0
  {
  }

  lemma {:induction false} OrIsBelow(a: nat, b: nat, k: nat)
    requires a < Pow2(k) && b < Pow2(k)
    ensures BitOr(a, b) < Pow2(k)
    decreases k
  {
    if k > 0 && a > 0 && b > 0 {
      OrIsBelow(a / 2, b / 2, k - 1);
    }
  }

  lemma Spans()
    ensures Pow2(20) == SEQ_SPAN && Pow2(44) == TS_SPAN && TS_SPAN * SEQ_SPAN == TWO64
  {
    assert Pow2(4) == 16 && Pow2(8) == 256 && Pow2(12) == 4096 && Pow2(16) == 65536 && Pow2(20) == SEQ_SPAN;
    assert Pow2(24) == 16 * SEQ_SPAN && Pow2(28) == 256 * SEQ_SPAN && Pow2(32) == 4096 * SEQ_SPAN;
    assert Pow2(36) == 65536 * SEQ_SPAN && Pow2(40) == SEQ_SPAN * SEQ_SPAN;
  }

  /** The in-range ID with the same offset: the bits past 20 of the sequence go into the time. */
  function InRange(ts: nat, seq_: nat): (id: (nat, nat)) {
    (BitOr(ts % TS_SPAN, seq_ / SEQ_SPAN), seq_ % SEQ_SPAN)
  }

  lemma {:induction false} EncodeIs(ts: nat, seq_: nat)
    requires seq_ < TWO64
    ensures var (t, n) := InRange(ts, seq_); t < TS_SPAN && n < SEQ_SPAN && Encode(ts, seq_) == t * SEQ_SPAN + n
  {
    Spans();
    var x, y, n := ts % TS_SPAN, seq_ / SEQ_SPAN, seq_ % SEQ_SPAN;
    assert ts * SEQ_SPAN % TWO64 == x * SEQ_SPAN;
    assert y < TS_SPAN;
    OrSplits(x, 0, y, n, 20);
    OrIsBelow(x, y, 44);
    ShiftMultiplies(x, 20);
    ShiftMultiplies(y, 20);
    ShiftMultiplies(BitOr(x, y), 20);
  }

  lemma EncodeIsSum(ts: nat, seq_: nat)
    requires ts < TS_SPAN && seq_ < SEQ_SPAN
    ensures Encode(ts, seq_) == ts * SEQ_SPAN + seq_ && InRange(ts, seq_) == (ts, seq_)
  {
    EncodeIs(ts, seq_);
    assert BitOr(ts, 0) == ts;
  }

  lemma ParseOfDashed(ts: nat, seq_: nat)
    requires ts < TWO64 && seq_ < TWO64
    ensures ParseStreamOffset(Format(ts) + "-" + Format(seq_)) == Encode(ts, seq_)
  {
    var id := Format(ts) + "-" + Format(seq_);
    ValueOfFormat(ts);
    DashIsFirst(id);
    var i := |Format(ts)|;
    assert id[i] == '-' && id[..i] == Format(ts) && id[i + 1..] == Format(seq_);
    assert forall k | 0 <= k < i :: id[k] == Format(ts)[k] && IsDigit(id[k]);
    assert Dash(id).value == i;
    ParseOfFormat(ts);
    ParseOfFormat(seq_);
  }

  /** What is not two 64-bit numbers with a "-" between them counts as offset 0. */
  lemma {:induction false} MalformedIsZero(id: string)
    requires forall i | 0 <= i < |id| && id[i] == '-' :: ParseUint(id[..i]).None? || ParseUint(id[i + 1..]).None?
    ensures ParseStreamOffset(id) == 0
  {
    DashIsFirst(id);
  }

  /** Every 64-bit offset survives the trip through its stream ID. */
  lemma OffsetRoundTrip(offset: nat)
    requires offset < TWO64
    ensures ParseStreamOffset(StreamStartID(offset)) == offset
  {
    if offset == 0 {
      assert Dash("0").None?;
    } else {
      ParseOfDashed(offset / SEQ_SPAN, offset % SEQ_SPAN);
      EncodeIsSum(offset / SEQ_SPAN, offset % SEQ_SPAN);
    }
  }

  /** IDs in range encode injectively and in stream order: by time, then by sequence. */
  lemma EncodingKeepsStreamOrder(ts1: nat, seq1: nat, ts2: nat, seq2: nat)
    requires ts1 < TS_SPAN && seq1 < SEQ_SPAN && ts2 < TS_SPAN && seq2 < SEQ_SPAN
    ensures Encode(ts1, seq1) < Encode(ts2, seq2) <==> ts1 < ts2 || (ts1 == ts2 && seq1 < seq2)
    ensures Encode(ts1, seq1) == Encode(ts2, seq2) <==> ts1 == ts2 && seq1 == seq2
    ensures Encode(ts1, seq1) < TWO64
  {
    EncodeIsSum(ts1, seq1);
    EncodeIsSum(ts2, seq2);
  }

  /** Any two IDs share an offset iff they have the same ID in range, so only IDs out of range can. */
  lemma {:induction false} SameOffsetIff(ts1: nat, seq1: nat, ts2: nat, seq2: nat)
    requires seq1 < TWO64 && seq2 < TWO64
    ensures Encode(ts1, seq1) == Encode(ts2, seq2) <==> InRange(ts1, seq1) == InRange(ts2, seq2)
  {
    EncodeIs(ts1, seq1);
    EncodeIs(ts2, seq2);
  }

  /**
   Every ID shares its offset with an ID in range, and that is another ID iff
   the sequence is past 2^20 entries or the time past 2^44 milliseconds.
   */
  lemma {:induction false} OutOfRangeCollides(ts: nat, seq_: nat)
    requires ts < TWO64 && seq_ < TWO64
    ensures var (t, n) := InRange(ts, seq_);
            t < TS_SPAN && n < SEQ_SPAN && Encode(t, n) == Encode(ts, seq_) &&
            ParseStreamOffset(Format(t) + "-" + Format(n)) == ParseStreamOffset(Format(ts) + "-" + Format(seq_)) &&
            ((t, n) != (ts, seq_) <==> ts >= TS_SPAN || seq_ >= SEQ_SPAN)
  {
    EncodeIs(ts, seq_);
    var (t, n) := InRange(ts, seq_);
    EncodeIsSum(t, n);
    ParseOfDashed(t, n);
    ParseOfDashed(ts, seq_);
    if ts < TS_SPAN && seq_ < SEQ_SPAN {
      EncodeIsSum(ts, seq_);
    }
  }
}
