/** Circle's packed encodings: big-endian integers, fixed-width words and length-prefixed tails, and
    the decoder that reads them back (crates/xusdc-light-attester/src/verify.rs). */
module Packing {
  import opened Basics

  const U32_BYTES: nat := 4
  const WORD_BYTES: nat := 32

  type byte = b: nat | b < 256
  type u32 = n: nat | n < 0x1_0000_0000
  type u64 = n: nat | n < 0x1_0000_0000_0000_0000
  type u256 = n: nat | n < Pow256(WORD_BYTES)

  function Zeros(n: nat): (s: seq<byte>)
    ensures |s| == n
  {
    seq(n, _ => 0)
  }

  type Word = s: seq<byte> | |s| == 32 witness Zeros(32)
  /** A 20-byte address, as a number. */
  type Address = n: nat | n < 0x1_0000000000_0000000000_0000000000_0000000000

  /** An address, left-padded to a word. */
  function IntoWord(address: Address): Word {
    BigEndian(address, WORD_BYTES)
  }

  // ---- Big-endian integers -----------------------------------------------------------------------

  function Pow256(n: nat): (p: nat)
    ensures p > 0
  {
    if n == 0 then 1 else 256 * Pow256(n - 1)
  }

  /** The low `width` bytes of `n`, most significant first. */
  function BigEndian(n: nat, width: nat): (s: seq<byte>)
    ensures |s| == width
  {
    if width == 0 then [] else BigEndian(n / 256, width - 1) + [n % 256]
  }

  function ValueOf(s: seq<byte>): nat {
    if |s| == 0 then 0 else 256 * ValueOf(s[..|s| - 1]) + s[|s| - 1]
  }

  lemma {:induction false} BigEndianRoundTrip(n: nat, width: nat)
    requires n < Pow256(width)
    ensures ValueOf(BigEndian(n, width)) == n
  {
    if width > 0 {
      assert n / 256 < Pow256(width - 1);
      BigEndianRoundTrip(n / 256, width - 1);
    }
  }

  lemma FourBytes()
    ensures Pow256(U32_BYTES) == 0x1_0000_0000
  {
    assert Pow256(4) == 0x1_0000_0000;
  }

  lemma {:induction false} PowAdd(a: nat, b: nat)
    ensures Pow256(a + b) == Pow256(a) * Pow256(b)
  {
    if b > 0 { PowAdd(a, b - 1); }
  }

  /** A U256 has room for an address, and twice for a product of two 64-bit numbers. */
  lemma WideEnough()
    ensures Pow256(WORD_BYTES) >= 0x1_0000_0000_0000_0000 * 0x1_0000_0000_0000_0000 * 2
    ensures Pow256(WORD_BYTES) > 0x1_0000000000_0000000000_0000000000_0000000000
  {
    FourBytes();
    PowAdd(4, 4);
    PowAdd(8, 8);
    PowAdd(16, 16);
  }

  // ---- Chunks ------------------------------------------------------------------------------------

  function Join(chunks: seq<seq<byte>>): seq<byte> {
    if |chunks| == 0 then [] else Join(chunks[..|chunks| - 1]) + chunks[|chunks| - 1]
  }

  function Sum(widths: seq<nat>): nat {
    if |widths| == 0 then 0 else Sum(widths[..|widths| - 1]) + widths[|widths| - 1]
  }

  function Widths(chunks: seq<seq<byte>>): seq<nat> {
    seq(|chunks|, i requires 0 <= i < |chunks| => |chunks[i]|)
  }

  /** Cuts bytes into chunks of the given widths, if they fit exactly. */
  function Cut(bytes: seq<byte>, widths: seq<nat>): (chunks: Option<seq<seq<byte>>>)
    ensures chunks.Some? <==> |bytes| == Sum(widths)
    ensures chunks.Some? ==> |chunks.value| == |widths| && forall i :: 0 <= i < |widths| ==> |chunks.value[i]| == widths[i]
    decreases |widths|
  {
    if |widths| == 0 then (if |bytes| == 0 then Some([]) else None)
    else
      var width := widths[|widths| - 1];
      if |bytes| < width then None
      else
        var before := Cut(bytes[..|bytes| - width], widths[..|widths| - 1]);
        if before.Some? then Some(before.value + [bytes[|bytes| - width..]]) else None
  }

  /** Cutting undoes joining. */
  lemma {:induction false} CutJoin(chunks: seq<seq<byte>>)
    ensures Cut(Join(chunks), Widths(chunks)) == Some(chunks)
    ensures |Join(chunks)| == Sum(Widths(chunks))
  {
    if |chunks| > 0 {
      var init, last := chunks[..|chunks| - 1], chunks[|chunks| - 1];
      CutJoin(init);
      assert Widths(chunks)[..|chunks| - 1] == Widths(init);
      assert Join(chunks)[..|Join(init)|] == Join(init) && Join(chunks)[|Join(init)|..] == last;
      assert init + [last] == chunks;
    }
  }

  lemma JoinSnoc(chunks: seq<seq<byte>>, chunk: seq<byte>)
    ensures Join(chunks + [chunk]) == Join(chunks) + chunk
  {
    assert (chunks + [chunk])[..|chunks|] == chunks;
  }

  // ---- A fixed part and a length-prefixed tail ---------------------------------------------------

  /** The fixed chunks, the tail's length, and the tail; a tail too long for its length is refused. */
  function Pack(chunks: seq<seq<byte>>, tail: seq<byte>): Option<seq<byte>> {
    if |tail| < 0x1_0000_0000 then Some(Join(chunks + [BigEndian(|tail|, U32_BYTES)]) + tail) else None
  }

  /** Reads back what `Pack` wrote: the chunks and the tail, if the bytes have exactly that form. */
  function Unpack(bytes: seq<byte>, widths: seq<nat>): (r: Option<(seq<seq<byte>>, seq<byte>)>)
    ensures r.Some? ==> |r.value.0| == |widths| && forall i :: 0 <= i < |widths| ==> |r.value.0[i]| == widths[i]
  {
    var width := Sum(widths + [4]);
    if |bytes| < width then None
    else
      var cut := Cut(bytes[..width], widths + [4]);
      if cut.None? || ValueOf(cut.value[|widths|]) != |bytes| - width then None
      else Some((cut.value[..|widths|], bytes[width..]))
  }

  lemma UnpackPack(chunks: seq<seq<byte>>, tail: seq<byte>)
    requires Pack(chunks, tail).Some?
    ensures Unpack(Pack(chunks, tail).value, Widths(chunks)) == Some((chunks, tail))
  {
    var all := chunks + [BigEndian(|tail|, U32_BYTES)];
    var bytes := Join(all) + tail;
    CutJoin(all);
    assert Widths(all) == Widths(chunks) + [4];
    assert bytes[..|Join(all)|] == Join(all) && bytes[|Join(all)|..] == tail;
    FourBytes();
    BigEndianRoundTrip(|tail|, U32_BYTES);
    assert all[..|chunks|] == chunks;
  }

  // ---- The three encodings -----------------------------------------------------------------------

  const BURN_INTENT_MAGIC: nat := 0x070a_fbc2
  const TRANSFER_SPEC_MAGIC: nat := 0xca85_def7
  const WITHDRAW_HOOK_DATA_MAGIC: nat := 0x6b20_f62a
  const WITHDRAW_HOOK_DATA_VERSION: nat := 1

  datatype HookData = HookData(
    remoteDomain: u32, remoteToken: Word, remoteDepositor: Word, contract: Address, calldata: seq<byte>)

  datatype TransferSpec = TransferSpec(
    version: u32, sourceDomain: u32, destinationDomain: u32,
    sourceContract: Word, destinationContract: Word, sourceToken: Word, destinationToken: Word,
    sourceDepositor: Word, destinationRecipient: Word, sourceSigner: Word, destinationCaller: Word,
    value: u256, salt: Word, hookData: seq<byte>)

  datatype BurnIntent = BurnIntent(maxBlockHeight: u256, maxFee: u256, spec: TransferSpec)

  function HookChunks(hook: HookData): (chunks: seq<seq<byte>>)
    ensures Widths(chunks) == HookWidths()
  {
    var chunks := [BigEndian(WITHDRAW_HOOK_DATA_MAGIC, U32_BYTES), BigEndian(WITHDRAW_HOOK_DATA_VERSION, U32_BYTES),
                   BigEndian(hook.remoteDomain, U32_BYTES), hook.remoteToken, hook.remoteDepositor, IntoWord(hook.contract)];
    assert Widths(chunks) == HookWidths();
    chunks
  }

  function HookWidths(): seq<nat> { [4, 4, 4, 32, 32, 32] }

  function EncodeHook(hook: HookData): Option<seq<byte>> {
    Pack(HookChunks(hook), hook.calldata)
  }

  function Contracts(spec: TransferSpec): seq<seq<byte>> {
    [spec.sourceContract, spec.destinationContract, spec.sourceToken, spec.destinationToken,
     spec.sourceDepositor, spec.destinationRecipient, spec.sourceSigner, spec.destinationCaller]
  }

  /** The fields before the words. */
  function SpecNumbers(spec: TransferSpec): seq<seq<byte>> {
    [BigEndian(TRANSFER_SPEC_MAGIC, U32_BYTES), BigEndian(spec.version, U32_BYTES),
     BigEndian(spec.sourceDomain, U32_BYTES), BigEndian(spec.destinationDomain, U32_BYTES)]
  }

  function SpecChunks(spec: TransferSpec): (chunks: seq<seq<byte>>)
    ensures Widths(chunks) == SpecWidths()
  {
    var chunks := SpecNumbers(spec) + Contracts(spec) + [BigEndian(spec.value, WORD_BYTES), spec.salt];
    assert Widths(chunks) == SpecWidths();
    chunks
  }

  function SpecWidths(): seq<nat> { [4, 4, 4, 4, 32, 32, 32, 32, 32, 32, 32, 32, 32, 32] }

  function EncodeSpec(spec: TransferSpec): Option<seq<byte>> {
    Pack(SpecChunks(spec), spec.hookData)
  }

  function IntentChunks(intent: BurnIntent): (chunks: seq<seq<byte>>)
    ensures Widths(chunks) == IntentWidths()
  {
    var chunks := [BigEndian(BURN_INTENT_MAGIC, U32_BYTES), BigEndian(intent.maxBlockHeight, WORD_BYTES), BigEndian(intent.maxFee, WORD_BYTES)];
    assert Widths(chunks) == IntentWidths();
    chunks
  }

  function IntentWidths(): seq<nat> { [4, 32, 32] }

  function EncodeIntent(intent: BurnIntent): Option<seq<byte>> {
    var spec := EncodeSpec(intent.spec);
    if spec.Some? then Pack(IntentChunks(intent), spec.value) else None
  }

  // ---- The decoder -------------------------------------------------------------------------------

  function DecodeHook(bytes: seq<byte>): Option<HookData> {
    var r := Unpack(bytes, HookWidths());
    if r.None? then None
    else
      var c := r.value.0;
      if ValueOf(c[0]) != WITHDRAW_HOOK_DATA_MAGIC || ValueOf(c[1]) != WITHDRAW_HOOK_DATA_VERSION
         || ValueOf(c[2]) >= 0x1_0000_0000 || ValueOf(c[5]) >= 0x1_0000000000_0000000000_0000000000_0000000000
      then None else Some(HookData(ValueOf(c[2]), c[3], c[4], ValueOf(c[5]), r.value.1))
  }

  function DecodeSpec(bytes: seq<byte>): Option<TransferSpec> {
    var r := Unpack(bytes, SpecWidths());
    if r.None? then None
    else
      var c := r.value.0;
      assert forall i :: 4 <= i < 14 ==> |c[i]| == 32;
      if ValueOf(c[0]) != TRANSFER_SPEC_MAGIC || ValueOf(c[1]) >= 0x1_0000_0000 || ValueOf(c[2]) >= 0x1_0000_0000
         || ValueOf(c[3]) >= 0x1_0000_0000 || ValueOf(c[12]) >= Pow256(WORD_BYTES)
      then None
      else Some(TransferSpec(ValueOf(c[1]), ValueOf(c[2]), ValueOf(c[3]), c[4], c[5], c[6], c[7], c[8], c[9], c[10],
                             c[11], ValueOf(c[12]), c[13], r.value.1))
  }

  function DecodeIntent(bytes: seq<byte>): Option<BurnIntent> {
    var r := Unpack(bytes, IntentWidths());
    if r.None? then None
    else
      var c := r.value.0;
      var spec := DecodeSpec(r.value.1);
      if ValueOf(c[0]) != BURN_INTENT_MAGIC || ValueOf(c[1]) >= Pow256(WORD_BYTES) || ValueOf(c[2]) >= Pow256(WORD_BYTES) || spec.None?
      then None else Some(BurnIntent(ValueOf(c[1]), ValueOf(c[2]), spec.value))
  }

  // ---- Round trips -------------------------------------------------------------------------------

  lemma HookRoundTrip(hook: HookData)
    requires EncodeHook(hook).Some?
    ensures DecodeHook(EncodeHook(hook).value) == Some(hook)
  {
    UnpackPack(HookChunks(hook), hook.calldata);
    FourBytes();
    BigEndianRoundTrip(WITHDRAW_HOOK_DATA_MAGIC, U32_BYTES);
    BigEndianRoundTrip(WITHDRAW_HOOK_DATA_VERSION, U32_BYTES);
    BigEndianRoundTrip(hook.remoteDomain, U32_BYTES);
    WideEnough();
    BigEndianRoundTrip(hook.contract, WORD_BYTES);
  }

  lemma SpecRoundTrip(spec: TransferSpec)
    requires EncodeSpec(spec).Some?
    ensures DecodeSpec(EncodeSpec(spec).value) == Some(spec)
  {
    UnpackPack(SpecChunks(spec), spec.hookData);
    FourBytes();
    BigEndianRoundTrip(TRANSFER_SPEC_MAGIC, U32_BYTES);
    BigEndianRoundTrip(spec.version, U32_BYTES);
    BigEndianRoundTrip(spec.sourceDomain, U32_BYTES);
    BigEndianRoundTrip(spec.destinationDomain, U32_BYTES);
    BigEndianRoundTrip(spec.value, WORD_BYTES);
  }

  lemma IntentRoundTrip(intent: BurnIntent)
    requires EncodeIntent(intent).Some?
    ensures DecodeIntent(EncodeIntent(intent).value) == Some(intent)
  {
    UnpackPack(IntentChunks(intent), EncodeSpec(intent.spec).value);
    SpecRoundTrip(intent.spec);
    FourBytes();
    BigEndianRoundTrip(BURN_INTENT_MAGIC, U32_BYTES);
    BigEndianRoundTrip(intent.maxBlockHeight, WORD_BYTES);
    BigEndianRoundTrip(intent.maxFee, WORD_BYTES);
  }

  // ---- The decoder accepts nothing else ----------------------------------------------------------

  lemma {:induction false} ValueRoundTrip(s: seq<byte>)
    ensures BigEndian(ValueOf(s), |s|) == s && ValueOf(s) < Pow256(|s|)
  {
    if |s| > 0 {
      var init := s[..|s| - 1];
      ValueRoundTrip(init);
      assert ValueOf(s) / 256 == ValueOf(init) && ValueOf(s) % 256 == s[|s| - 1];
      assert s == init + [s[|s| - 1]];
    }
  }

  lemma {:induction false} JoinCut(bytes: seq<byte>, widths: seq<nat>)
    requires |bytes| == Sum(widths)
    ensures Join(Cut(bytes, widths).value) == bytes
    decreases |widths|
  {
    if |widths| > 0 {
      var at := |bytes| - widths[|widths| - 1];
      var front, back := bytes[..at], bytes[at..];
      JoinCut(front, widths[..|widths| - 1]);
      var before := Cut(front, widths[..|widths| - 1]).value;
      assert Cut(bytes, widths) == Some(before + [back]);
      JoinSnoc(before, back);
      assert front + back == bytes;
    }
  }

  lemma PackUnpack(bytes: seq<byte>, widths: seq<nat>)
    requires Unpack(bytes, widths).Some?
    ensures var (chunks, tail) := Unpack(bytes, widths).value; Pack(chunks, tail) == Some(bytes)
  {
    var width := Sum(widths + [4]);
    var all := Cut(bytes[..width], widths + [4]).value;
    var (chunks, tail) := Unpack(bytes, widths).value;
    JoinCut(bytes[..width], widths + [4]);
    ValueRoundTrip(all[|widths|]);
    FourBytes();
    assert all == chunks + [BigEndian(|tail|, U32_BYTES)];
    assert bytes[..width] + bytes[width..] == bytes;
  }

  /** Whatever decodes is the encoding of what it decodes to: one form of bytes per intent. */
  lemma DecodedIsCanonical(bytes: seq<byte>)
    ensures DecodeHook(bytes).Some? ==> EncodeHook(DecodeHook(bytes).value) == Some(bytes)
    ensures DecodeSpec(bytes).Some? ==> EncodeSpec(DecodeSpec(bytes).value) == Some(bytes)
    ensures DecodeIntent(bytes).Some? ==> EncodeIntent(DecodeIntent(bytes).value) == Some(bytes)
  {
    if DecodeHook(bytes).Some? { HookIsCanonical(bytes); }
    if DecodeSpec(bytes).Some? { SpecIsCanonical(bytes); }
    if DecodeIntent(bytes).Some? { IntentIsCanonical(bytes); }
  }

  lemma IntentIsCanonical(bytes: seq<byte>)
    requires DecodeIntent(bytes).Some?
    ensures EncodeIntent(DecodeIntent(bytes).value) == Some(bytes)
  {
    var (c, tail) := Unpack(bytes, IntentWidths()).value;
    var intent := DecodeIntent(bytes).value;
    SpecIsCanonical(tail);
    IntentChunksBack(c, intent);
    PackUnpack(bytes, IntentWidths());
  }

  lemma IntentChunksBack(c: seq<seq<byte>>, intent: BurnIntent)
    requires |c| == 3 && |c[0]| == 4 && |c[1]| == |c[2]| == 32
    requires ValueOf(c[0]) == BURN_INTENT_MAGIC && ValueOf(c[1]) == intent.maxBlockHeight && ValueOf(c[2]) == intent.maxFee
    ensures IntentChunks(intent) == c
  {
    ValueRoundTrip(c[0]);
    ValueRoundTrip(c[1]);
    ValueRoundTrip(c[2]);
  }

  lemma HookIsCanonical(bytes: seq<byte>)
    requires DecodeHook(bytes).Some?
    ensures EncodeHook(DecodeHook(bytes).value) == Some(bytes)
  {
    var (c, _) := Unpack(bytes, HookWidths()).value;
    HookChunksBack(c, DecodeHook(bytes).value);
    PackUnpack(bytes, HookWidths());
  }

  lemma HookChunksBack(c: seq<seq<byte>>, hook: HookData)
    requires |c| == 6 && |c[0]| == |c[1]| == |c[2]| == 4 && |c[5]| == 32
    requires ValueOf(c[0]) == WITHDRAW_HOOK_DATA_MAGIC && ValueOf(c[1]) == WITHDRAW_HOOK_DATA_VERSION
    requires ValueOf(c[2]) == hook.remoteDomain && c[3] == hook.remoteToken && c[4] == hook.remoteDepositor
    requires ValueOf(c[5]) == hook.contract
    ensures HookChunks(hook) == c
  {
    ValueRoundTrip(c[0]);
    ValueRoundTrip(c[1]);
    ValueRoundTrip(c[2]);
    ValueRoundTrip(c[5]);
  }

  lemma SpecIsCanonical(bytes: seq<byte>)
    requires DecodeSpec(bytes).Some?
    ensures EncodeSpec(DecodeSpec(bytes).value) == Some(bytes)
  {
    var (c, _) := Unpack(bytes, SpecWidths()).value;
    var spec := DecodeSpec(bytes).value;
    SpecChunksBack(c, spec);
    PackUnpack(bytes, SpecWidths());
  }

  lemma SpecChunksBack(c: seq<seq<byte>>, spec: TransferSpec)
    requires |c| == 14 && |c[0]| == |c[1]| == |c[2]| == |c[3]| == 4 && |c[12]| == 32
    requires ValueOf(c[0]) == TRANSFER_SPEC_MAGIC && ValueOf(c[1]) == spec.version
    requires ValueOf(c[2]) == spec.sourceDomain && ValueOf(c[3]) == spec.destinationDomain
    requires c[4..12] == Contracts(spec) && ValueOf(c[12]) == spec.value && c[13] == spec.salt
    ensures SpecChunks(spec) == c
  {
    ValueRoundTrip(c[0]);
    ValueRoundTrip(c[1]);
    ValueRoundTrip(c[2]);
    ValueRoundTrip(c[3]);
    ValueRoundTrip(c[12]);
    assert c == c[..4] + c[4..12] + c[12..];
  }

  /** Equal bytes mean equal fields, all the way down. */
  lemma EncodingsAreInjective(a: BurnIntent, b: BurnIntent, h: HookData, k: HookData)
    ensures EncodeIntent(a).Some? && EncodeIntent(a) == EncodeIntent(b) ==> a == b
    ensures EncodeSpec(a.spec).Some? && EncodeSpec(a.spec) == EncodeSpec(b.spec) ==> a.spec == b.spec
    ensures EncodeHook(h).Some? && EncodeHook(h) == EncodeHook(k) ==> h == k
  {
    if EncodeIntent(a).Some? && EncodeIntent(a) == EncodeIntent(b) { IntentRoundTrip(a); IntentRoundTrip(b); }
    if EncodeSpec(a.spec).Some? && EncodeSpec(a.spec) == EncodeSpec(b.spec) { SpecRoundTrip(a.spec); SpecRoundTrip(b.spec); }
    if EncodeHook(h).Some? && EncodeHook(h) == EncodeHook(k) { HookRoundTrip(h); HookRoundTrip(k); }
  }

  // ---- The buffer-extending encoders -------------------------------------------------------------

  /** Extends the buffer by a length and the bytes it counts. */
  method AppendWithLength(output: seq<byte>, ghost done: seq<seq<byte>>, bytes: seq<byte>) returns (r: Option<seq<byte>>)
    requires output == Join(done)
    ensures r == Pack(done, bytes)
  {
    if |bytes| >= 0x1_0000_0000 { return None; }
    var extended := output + BigEndian(|bytes|, U32_BYTES);
    JoinSnoc(done, BigEndian(|bytes|, U32_BYTES));
    r := Some(extended + bytes);
  }

  /** Extends the buffer; `done` is what it holds so far. */
  method Extend(bytes: seq<byte>, ghost done: seq<seq<byte>>, chunk: seq<byte>)
    returns (extended: seq<byte>, ghost done': seq<seq<byte>>)
    requires bytes == Join(done)
    ensures extended == Join(done') && done' == done + [chunk]
  {
    extended, done' := bytes + chunk, done + [chunk];
    JoinSnoc(done, chunk);
  }

  method WriteHook(hook: HookData) returns (r: Option<seq<byte>>)
    ensures r == EncodeHook(hook)
  {
    var bytes, done := Extend([], [], BigEndian(WITHDRAW_HOOK_DATA_MAGIC, U32_BYTES));
    bytes, done := Extend(bytes, done, BigEndian(WITHDRAW_HOOK_DATA_VERSION, U32_BYTES));
    bytes, done := Extend(bytes, done, BigEndian(hook.remoteDomain, U32_BYTES));
    bytes, done := Extend(bytes, done, hook.remoteToken);
    bytes, done := Extend(bytes, done, hook.remoteDepositor);
    bytes, done := Extend(bytes, done, IntoWord(hook.contract));
    assert done == HookChunks(hook);
    r := AppendWithLength(bytes, done, hook.calldata);
  }

  method WriteNumbers(spec: TransferSpec) returns (bytes: seq<byte>)
    ensures bytes == Join(SpecNumbers(spec))
  {
    ghost var done := [];
    bytes, done := Extend([], [], BigEndian(TRANSFER_SPEC_MAGIC, U32_BYTES));
    bytes, done := Extend(bytes, done, BigEndian(spec.version, U32_BYTES));
    bytes, done := Extend(bytes, done, BigEndian(spec.sourceDomain, U32_BYTES));
    bytes, done := Extend(bytes, done, BigEndian(spec.destinationDomain, U32_BYTES));
    assert done == SpecNumbers(spec);
  }

  method WriteSpec(spec: TransferSpec) returns (r: Option<seq<byte>>)
    ensures r == EncodeSpec(spec)
  {
    var bytes := WriteNumbers(spec);
    ghost var done := SpecNumbers(spec);
    var fields := Contracts(spec);
    for i := 0 to |fields|
      invariant bytes == Join(done) && done == SpecNumbers(spec) + fields[..i]
    {
      bytes, done := Extend(bytes, done, fields[i]);
    }
    var value := BigEndian(spec.value, WORD_BYTES);
    bytes, done := Extend(bytes, done, value);
    bytes, done := Extend(bytes, done, spec.salt);
    SpecHead(spec, done, value);
    r := AppendWithLength(bytes, done, spec.hookData);
  }

  lemma SpecHead(spec: TransferSpec, done: seq<seq<byte>>, value: seq<byte>)
    requires done == SpecNumbers(spec) + Contracts(spec)[..8] + [value] + [spec.salt] && value == BigEndian(spec.value, WORD_BYTES)
    ensures done == SpecChunks(spec)
  {
    assert Contracts(spec)[..8] == Contracts(spec);
  }

  method WriteIntent(intent: BurnIntent) returns (r: Option<seq<byte>>)
    ensures r == EncodeIntent(intent)
  {
    var height, fee := BigEndian(intent.maxBlockHeight, WORD_BYTES), BigEndian(intent.maxFee, WORD_BYTES);
    var bytes, done := Extend([], [], BigEndian(BURN_INTENT_MAGIC, U32_BYTES));
    bytes, done := Extend(bytes, done, height);
    bytes, done := Extend(bytes, done, fee);
    IntentHead(intent, done, height, fee);
    var spec := WriteSpec(intent.spec);
    if spec.None? { return None; }
    r := AppendWithLength(bytes, done, spec.value);
  }

  lemma IntentHead(intent: BurnIntent, done: seq<seq<byte>>, height: seq<byte>, fee: seq<byte>)
    requires done == [BigEndian(BURN_INTENT_MAGIC, U32_BYTES)] + [height] + [fee]
    requires height == BigEndian(intent.maxBlockHeight, WORD_BYTES) && fee == BigEndian(intent.maxFee, WORD_BYTES)
    ensures done == IntentChunks(intent)
  {}
}
