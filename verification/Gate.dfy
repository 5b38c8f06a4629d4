/** The gate before signing: Circle's prepared withdrawal is checked against the burn, field by field
    and byte by byte (crates/xusdc-light-attester/src/verify.rs and config.rs). */
module Gate {
  import opened Basics
  import opened Packing

  // ---- What is checked ---------------------------------------------------------------------------

  /** `note` is the burn's note ID, `sender` its burner's account as a word. */
  datatype Burn = Burn(note: Word, sender: Word, domain: u32, recipient: Word, amount: u64)

  datatype GateConfig = GateConfig(
    faucet: Word, miden: u32, maxFee: u64, bps: u64,
    messenger: Address, forwarder: Address, cctpMaxFee: u64, redepositMaxFee: Option<u64>)

  datatype CctpCall = CctpCall(
    amount: u256, destinationDomain: u32, mintRecipient: Word, burnToken: Address,
    destinationCaller: Word, maxFee: u256, minFinality: u32, hookData: seq<byte>)

  datatype RedepositCall = RedepositCall(
    value: u256, remoteDomain: u32, remoteRecipient: Word, localToken: Address, maxFee: u256, hookData: seq<byte>)

  /** The hashes and the contract-call codec, of which only what the lemmas state is known. */
  datatype Codec = Codec(
    keccak: seq<byte> -> Word,
    signingHash: BurnIntent -> Word,
    readCctp: seq<byte> -> Option<CctpCall>,
    writeCctp: CctpCall -> seq<byte>,
    readRedeposit: seq<byte> -> Option<RedepositCall>,
    writeRedeposit: RedepositCall -> seq<byte>)

  /** Circle's reply. Hexadecimal text is kept as what it parses to, if it does. */
  datatype RawHook = RawHook(
    remoteDomain: u32, remoteToken: Option<Word>, remoteDepositor: Option<Word>,
    contract: Option<Address>, calldata: Option<seq<byte>>)

  datatype RawSpec = RawSpec(
    version: u32, sourceDomain: u32, destinationDomain: u32,
    sourceContract: Option<Word>, destinationContract: Option<Word>,
    sourceToken: Option<Word>, destinationToken: Option<Word>,
    sourceDepositor: Option<Word>, destinationRecipient: Option<Word>,
    sourceSigner: Option<Word>, destinationCaller: Option<Word>,
    value: string, salt: Option<Word>, hook: RawHook)

  datatype RawIntent = RawIntent(maxBlockHeight: string, maxFee: string, spec: RawSpec)

  datatype Batch = Batch(intents: seq<RawIntent>, encoded: Option<seq<byte>>, digest: Option<Word>)

  datatype VerifyError =
    | WrongCount | UnsupportedDestination | UnknownSalt | WrongBurnField(field: string) | BadAmount
    | FeeTooHigh | WrongSigner | WrongSourceToken | WrongSourceDomain | CallerRestricted
    | ForwardedField(field: string) | TooSmallToForward | PayoutTooSmallToForward
    | DigestMismatch | EncodedMismatch | MalformedField(field: string)

  datatype Verified = Verified(note: Word, intent: RawIntent, digest: Word, specHash: Word)

  const CCTP_FAST_FINALITY: u32 := 1000
  const ARC_DOMAIN: u32 := 26
  const ETHEREUM_DOMAIN: u32 := 0
  const FIRST_REMOTE_DOMAIN: u32 := 10_000
  const STACKS_DOMAIN: u32 := 10_003
  const CARDANO_DOMAIN: u32 := 10_004
  const MOVEMENT_DOMAIN: u32 := 10_005

  const ARC_USDC: Address := 0x3600000000000000000000000000000000000000

  /** The ASCII marker "cctp-forward", zero-padded. */
  function CctpForwardMarker(): Word {
    [0x63, 0x63, 0x74, 0x70, 0x2d, 0x66, 0x6f, 0x72, 0x77, 0x61, 0x72, 0x64] + Zeros(20)
  }

  // ---- Amounts -----------------------------------------------------------------------------------

  function WrappingAdd(a: u256, b: u256): u256 { (a + b) % Pow256(WORD_BYTES) }
  function WrappingMul(a: u256, b: u256): u256 { (a * b) % Pow256(WORD_BYTES) }
  function CheckedAdd(a: u256, b: u256): Option<u256> { if a + b < Pow256(WORD_BYTES) then Some(a + b) else None }
  function SaturatingAdd(a: u256, b: u256): u256 { if a + b < Pow256(WORD_BYTES) then a + b else Pow256(WORD_BYTES) - 1 }

  function Wide(n: u64): (w: u256)
    ensures w == n
  {
    WideEnough();
    n
  }

  /** The fee ceiling as the code computes it, in U256 arithmetic. */
  function FeeCeiling(cfg: GateConfig, amount: u64): u256 {
    WideEnough();
    WrappingAdd(Wide(cfg.maxFee), WrappingMul(Wide(amount), Wide(cfg.bps)) / 10_000)
  }

  /** A share of an amount, in basis points. */
  function Share(amount: nat, bps: nat): nat {
    var product: nat := amount * bps;
    product / 10_000
  }

  /** Nothing wraps: the ceiling is the fixed part plus the share of the burn. */
  lemma CeilingIsExact(cfg: GateConfig, amount: u64)
    ensures FeeCeiling(cfg, amount) == cfg.maxFee + Share(amount, cfg.bps)
  {
    WideEnough();
    ProductBound(amount, cfg.bps, 0x1_0000_0000_0000_0000);
    Unwrapped(amount * cfg.bps, Pow256(WORD_BYTES));
    Unwrapped(cfg.maxFee + Share(amount, cfg.bps), Pow256(WORD_BYTES));
  }

  lemma ProductBound(a: nat, b: nat, bound: nat)
    requires a < bound && b < bound
    ensures 0 <= a * b < bound * bound
  {
    assert a * b <= a * bound && a * bound < bound * bound;
  }

  lemma Unwrapped(n: nat, modulus: nat)
    requires n < modulus
    ensures n % modulus == n
  {}

  predicate IsDigit(c: char) { '0' <= c <= '9' }

  function Digit(c: char): (d: nat)
    requires IsDigit(c)
  {
    c as int - '0' as int
  }

  function DigitsValue(text: string): nat
    requires forall i :: 0 <= i < |text| ==> IsDigit(text[i])
  {
    if |text| == 0 then 0 else 10 * DigitsValue(text[..|text| - 1]) + Digit(text[|text| - 1])
  }

  /** Plain digits only, and no more than a U256 holds. */
  function Decimal(text: string): Option<u256> {
    if |text| == 0 || !(forall i :: 0 <= i < |text| ==> IsDigit(text[i])) then None
    else if DigitsValue(text) < Pow256(WORD_BYTES) then Some(DigitsValue(text)) else None
  }

  function DigitChar(d: nat): (c: char)
    requires d < 10
    ensures IsDigit(c) && Digit(c) == d
  {
    (d + '0' as int) as char
  }

  /** The decimal text of a number. */
  function Show(n: nat): (text: string)
    ensures |text| > 0 && forall i :: 0 <= i < |text| ==> IsDigit(text[i])
  {
    (if n < 10 then "" else Show(n / 10)) + [DigitChar(n % 10)]
  }

  lemma DecimalReadsShow(n: u256)
    ensures Decimal(Show(n)) == Some(n)
  {
    ShownValue(n);
  }

  lemma {:induction false} ShownValue(n: nat)
    ensures DigitsValue(Show(n)) == n
  {
    var text := Show(n);
    if n >= 10 {
      ShownValue(n / 10);
      assert text[..|text| - 1] == Show(n / 10);
    }
  }

  // ---- Parsing -----------------------------------------------------------------------------------

  /** The name of the first check that fails. */
  function FirstFailed(checks: seq<(bool, string)>): (failed: Option<string>)
    ensures failed.None? <==> forall i :: 0 <= i < |checks| ==> checks[i].0
  {
    if |checks| == 0 then None
    else if !checks[0].0 then Some(checks[0].1)
    else FirstFailed(checks[1..])
  }

  /** The parsed fields, in the order they are parsed. */
  function Fields(raw: RawIntent): seq<(bool, string)> {
    var spec, hook := raw.spec, raw.spec.hook;
    [(hook.remoteToken.Some?, "remoteToken"), (hook.remoteDepositor.Some?, "remoteDepositor"),
     (hook.contract.Some?, "forwardingContractAddress"), (hook.calldata.Some?, "forwardingCalldata"),
     (Decimal(raw.maxBlockHeight).Some?, "maxBlockHeight"), (Decimal(raw.maxFee).Some?, "maxFee"),
     (spec.sourceContract.Some?, "sourceContract"), (spec.destinationContract.Some?, "destinationContract"),
     (spec.sourceToken.Some?, "sourceToken"), (spec.destinationToken.Some?, "destinationToken"),
     (spec.sourceDepositor.Some?, "sourceDepositor"), (spec.destinationRecipient.Some?, "destinationRecipient"),
     (spec.sourceSigner.Some?, "sourceSigner"), (spec.destinationCaller.Some?, "destinationCaller"),
     (Decimal(spec.value).Some?, "value"), (spec.salt.Some?, "salt")]
  }

  predicate WellFormed(raw: RawIntent) {
    var spec, hook := raw.spec, raw.spec.hook;
    && hook.remoteToken.Some? && hook.remoteDepositor.Some? && hook.contract.Some? && hook.calldata.Some?
    && Decimal(raw.maxBlockHeight).Some? && Decimal(raw.maxFee).Some?
    && spec.sourceContract.Some? && spec.destinationContract.Some? && spec.sourceToken.Some? && spec.destinationToken.Some?
    && spec.sourceDepositor.Some? && spec.destinationRecipient.Some? && spec.sourceSigner.Some? && spec.destinationCaller.Some?
    && Decimal(spec.value).Some? && spec.salt.Some?
  }

  lemma MalformedExactly(raw: RawIntent)
    ensures FirstFailed(Fields(raw)).None? <==> WellFormed(raw)
  {
    var f := Fields(raw);
    if FirstFailed(f).None? {
      assert f[0].0 && f[1].0 && f[2].0 && f[3].0 && f[4].0 && f[5].0 && f[6].0 && f[7].0;
      assert f[8].0 && f[9].0 && f[10].0 && f[11].0 && f[12].0 && f[13].0 && f[14].0 && f[15].0;
    }
  }

  function HookOf(raw: RawIntent): HookData
    requires WellFormed(raw)
  {
    var hook := raw.spec.hook;
    HookData(hook.remoteDomain, hook.remoteToken.value, hook.remoteDepositor.value, hook.contract.value, hook.calldata.value)
  }

  function IntentOf(raw: RawIntent, hookData: seq<byte>): BurnIntent
    requires WellFormed(raw)
  {
    var spec := raw.spec;
    BurnIntent(Decimal(raw.maxBlockHeight).value, Decimal(raw.maxFee).value,
      TransferSpec(spec.version, spec.sourceDomain, spec.destinationDomain,
        spec.sourceContract.value, spec.destinationContract.value, spec.sourceToken.value, spec.destinationToken.value,
        spec.sourceDepositor.value, spec.destinationRecipient.value, spec.sourceSigner.value, spec.destinationCaller.value,
        Decimal(spec.value).value, spec.salt.value, hookData))
  }

  function ParseIntent(raw: RawIntent): Result<(BurnIntent, HookData), VerifyError> {
    var malformed := FirstFailed(Fields(raw));
    if malformed.Some? then Err(MalformedField(malformed.value))
    else
      MalformedExactly(raw);
      var hook := HookOf(raw);
      var hookData := EncodeHook(hook);
      if hookData.None? then Err(MalformedField("encoded length")) else Ok((IntentOf(raw, hookData.value), hook))
  }

  // ---- Routes ------------------------------------------------------------------------------------

  /** Remote destinations need explicit support; native routes keep their CCTP cap. */
  function ForwardingMaxFee(cfg: GateConfig, destination: u32): Option<u64> {
    if destination in {STACKS_DOMAIN, CARDANO_DOMAIN, MOVEMENT_DOMAIN} then cfg.redepositMaxFee
    else if destination >= FIRST_REMOTE_DOMAIN then None
    else Some(cfg.cctpMaxFee)
  }

  datatype Route = Direct | Forwarded | Redeposit

  function RouteOf(burn: Burn, hook: HookData): Route {
    if burn.domain >= FIRST_REMOTE_DOMAIN then Redeposit
    else if hook.contract != 0 || hook.calldata != [] then Forwarded
    else Direct
  }

  function CheckDirect(spec: TransferSpec, burn: Burn): Option<VerifyError> {
    if spec.destinationDomain != burn.domain then Some(WrongBurnField("destinationDomain"))
    else if spec.destinationRecipient != burn.recipient then Some(WrongBurnField("destinationRecipient"))
    else if spec.destinationCaller != Zeros(32) then Some(CallerRestricted)
    else None
  }

  function Failing(field: Option<string>): Option<VerifyError> {
    if field.Some? then Some(ForwardedField(field.value)) else None
  }

  function ForwardedChecks(cfg: GateConfig, spec: TransferSpec, hook: HookData): seq<(bool, string)> {
    [(hook.contract == cfg.messenger, "forwardingContractAddress"),
     (spec.destinationRecipient == IntoWord(cfg.forwarder), "destinationRecipient"),
     (spec.destinationCaller == IntoWord(cfg.forwarder), "destinationCaller"),
     (spec.destinationDomain == ARC_DOMAIN, "destinationDomain"),
     (spec.destinationToken == IntoWord(ARC_USDC), "destinationToken")]
  }

  function CctpChecks(cfg: GateConfig, call: CctpCall, spec: TransferSpec, burn: Burn): seq<(bool, string)> {
    [(call.amount == spec.value, "calldata amount"),
     (call.destinationDomain == burn.domain, "calldata destinationDomain"),
     (call.mintRecipient == burn.recipient, "calldata mintRecipient"),
     (IntoWord(call.burnToken) == spec.destinationToken, "calldata burnToken"),
     (call.destinationCaller == Zeros(32), "calldata destinationCaller"),
     (call.maxFee == cfg.cctpMaxFee, "calldata maxFee"),
     (call.minFinality == CCTP_FAST_FINALITY, "calldata minFinalityThreshold"),
     (call.hookData == CctpForwardMarker(), "calldata hookData")]
  }

  /** The forwarded leg pays the xReserve contract on Arc, which runs the CCTP transfer in the
      calldata, so what binds the withdrawal to the burn is read from there. */
  function CheckForwarded(cfg: GateConfig, codec: Codec, spec: TransferSpec, hook: HookData, burn: Burn): Option<VerifyError> {
    var first := FirstFailed(ForwardedChecks(cfg, spec, hook));
    if first.Some? then Failing(first)
    else
      var call := codec.readCctp(hook.calldata);
      if call.None? || codec.writeCctp(call.value) != hook.calldata then Some(ForwardedField("forwardingCalldata"))
      else Failing(FirstFailed(CctpChecks(cfg, call.value, spec, burn)))
  }

  /** A known xReserve's USDC on Ethereum, GatewayWallet and GatewayMinter. */
  datatype Deployment = Deployment(token: Address, wallet: Address, minter: Address)

  function XReserveDeployment(xreserve: Address): Option<Deployment> {
    if xreserve == 0x8888888199b2df864bf678259607d6d5ebb4e3ce then
      Some(Deployment(0xa0b86991c6218b36c1d19d4a2e9eb0ce3606eb48,
                      0x77777777dcc4d5a8b6e418fd04d8997ef11000ee,
                      0x2222222d7164433c4c09b0b0d809a9b52c04c205))
    else if xreserve == 0x008888878f94c0d87defdf0b07f46b93c1934442 then
      Some(Deployment(0x1c7d4b196cb0c7b01d743fbc6116a902379c7238,
                      0x0077777d7eba4688bdef3e311b846f25870a19b9,
                      0x0022222abe238cc2c7bb1f21003f0a260052475b))
    else None
  }

  function RedepositChecks(cfg: GateConfig, known: Deployment, spec: TransferSpec, hook: HookData, token: Address)
    : seq<(bool, string)>
  {
    [(hook.contract == cfg.forwarder, "forwardingContractAddress"),
     (spec.destinationRecipient == IntoWord(cfg.forwarder), "destinationRecipient"),
     (spec.destinationCaller == IntoWord(cfg.forwarder), "destinationCaller"),
     (spec.destinationToken == IntoWord(token), "destinationToken"),
     (spec.sourceContract == IntoWord(known.wallet), "sourceContract"),
     (spec.destinationContract == IntoWord(known.minter), "destinationContract")]
  }

  function RemoteChecks(call: RedepositCall, spec: TransferSpec, burn: Burn, token: Address, maxFee: u64): seq<(bool, string)> {
    [(call.value == spec.value, "calldata value"),
     (call.remoteDomain == burn.domain, "calldata remoteDomain"),
     (call.remoteRecipient == burn.recipient, "calldata remoteRecipient"),
     (call.localToken == token, "calldata localToken"),
     (call.maxFee == maxFee, "calldata maxFee"),
     (call.hookData == [], "calldata hookData")]
  }

  /** USDC on the reserve chain a redeposit passes through. */
  function ReserveToken(known: Deployment, domain: u32): Address {
    if domain == ETHEREUM_DOMAIN then known.token else ARC_USDC
  }

  /** A redeposit goes through the configured xReserve, a known deployment on Arc or Ethereum. */
  function CheckRedeposit(cfg: GateConfig, codec: Codec, spec: TransferSpec, hook: HookData, burn: Burn, maxFee: u64)
    : Option<VerifyError>
  {
    var known := XReserveDeployment(cfg.forwarder);
    if known.None? then Some(ForwardedField("xreserve deployment"))
    else if spec.destinationDomain != ETHEREUM_DOMAIN && spec.destinationDomain != ARC_DOMAIN then
      Some(ForwardedField("destinationDomain"))
    else
      var token := ReserveToken(known.value, spec.destinationDomain);
      var first := FirstFailed(RedepositChecks(cfg, known.value, spec, hook, token));
      if first.Some? then Failing(first)
      else
        var call := codec.readRedeposit(hook.calldata);
        if call.None? || codec.writeRedeposit(call.value) != hook.calldata then Some(ForwardedField("forwardingCalldata"))
        else Failing(FirstFailed(RemoteChecks(call.value, spec, burn, token, maxFee)))
  }

  function CheckLeg(cfg: GateConfig, codec: Codec, intent: BurnIntent, hook: HookData, burn: Burn, maxFee: u64)
    : Option<VerifyError>
  {
    match RouteOf(burn, hook)
    case Redeposit => CheckRedeposit(cfg, codec, intent.spec, hook, burn, maxFee)
    case Forwarded => CheckForwarded(cfg, codec, intent.spec, hook, burn)
    case Direct => CheckDirect(intent.spec, burn)
  }

  // ---- The gate ----------------------------------------------------------------------------------

  function SecondaryFee(burn: Burn, hook: HookData, maxFee: u64): u64 {
    if RouteOf(burn, hook) == Direct then 0 else maxFee
  }

  /** The checks that follow the route's own, in order. */
  function CheckTerms(cfg: GateConfig, intent: BurnIntent, hook: HookData, burn: Burn, secondary: u64): Option<VerifyError> {
    var spec := intent.spec;
    if hook.remoteDomain != cfg.miden then Some(WrongBurnField("remoteDomain"))
    else if hook.remoteDepositor != burn.sender then Some(WrongBurnField("remoteDepositor"))
    else if hook.remoteToken != cfg.faucet then Some(WrongBurnField("remoteToken"))
    else if spec.value == 0 || CheckedAdd(spec.value, intent.maxFee) != Some(Wide(burn.amount)) then Some(BadAmount)
    else if SaturatingAdd(intent.maxFee, Wide(secondary)) > FeeCeiling(cfg, burn.amount) then Some(FeeTooHigh)
    else if spec.sourceSigner != spec.sourceDepositor then Some(WrongSigner)
    else if spec.sourceToken != IntoWord(ARC_USDC) then Some(WrongSourceToken)
    else if spec.sourceDomain != ARC_DOMAIN then Some(WrongSourceDomain)
    else None
  }

  /** Circle's bytes and digest must be the ones rebuilt from the checked fields. */
  function CheckBytes(codec: Codec, intent: BurnIntent, batch: Batch): Option<VerifyError> {
    if batch.encoded.None? then Some(MalformedField("encoded"))
    else if EncodeIntent(intent).None? then Some(MalformedField("encoded length"))
    else if batch.encoded != EncodeIntent(intent) then Some(EncodedMismatch)
    else if batch.digest.None? then Some(MalformedField("messageHashToSign"))
    else if batch.digest != Some(codec.signingHash(intent)) then Some(DigestMismatch)
    else None
  }

  /** The second leg fails when its fee is at least the payout. */
  function CheckPayout(burn: Burn, hook: HookData, value: u256, secondary: u64): Option<VerifyError> {
    if RouteOf(burn, hook) != Direct && Wide(secondary) >= value then
      Some(if secondary >= burn.amount then TooSmallToForward else PayoutTooSmallToForward)
    else None
  }

  /** The checks on a parsed intent, and what is signed when all pass. */
  function Judge(cfg: GateConfig, codec: Codec, burn: Burn, batch: Batch, raw: RawIntent, intent: BurnIntent, hook: HookData)
    : Result<Verified, VerifyError>
  {
    var maxFee := ForwardingMaxFee(cfg, burn.domain);
    if intent.spec.salt != burn.note then Err(UnknownSalt)
    else if maxFee.None? then Err(UnsupportedDestination)
    else
      var secondary := SecondaryFee(burn, hook, maxFee.value);
      var leg := CheckLeg(cfg, codec, intent, hook, burn, maxFee.value);
      var terms := CheckTerms(cfg, intent, hook, burn, secondary);
      var bytes := CheckBytes(codec, intent, batch);
      var payout := CheckPayout(burn, hook, intent.spec.value, secondary);
      if leg.Some? then Err(leg.value)
      else if terms.Some? then Err(terms.value)
      else if bytes.Some? then Err(bytes.value)
      else if payout.Some? then Err(payout.value)
      else Ok(Verified(burn.note, raw, codec.signingHash(intent), codec.keccak(EncodeSpec(intent.spec).value)))
  }

  function Verify(cfg: GateConfig, codec: Codec, burn: Burn, response: seq<Batch>): Result<Verified, VerifyError> {
    if |response| != 1 || |response[0].intents| != 1 then Err(WrongCount)
    else
      var parsed := ParseIntent(response[0].intents[0]);
      if parsed.Err? then Err(parsed.error)
      else Judge(cfg, codec, burn, response[0], response[0].intents[0], parsed.value.0, parsed.value.1)
  }
}
