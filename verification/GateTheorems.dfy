/** What a signed withdrawal is worth: the gate passes exactly the quotes that deliver the burn. */
module GateTheorems {
  import opened Basics
  import opened Packing
  import opened Gate

  // ---- What binds a quote to its burn ------------------------------------------------------------

  predicate BindsCctp(cfg: GateConfig, codec: Codec, spec: TransferSpec, hook: HookData, burn: Burn) {
    && hook.contract == cfg.messenger
    && spec.destinationRecipient == spec.destinationCaller == IntoWord(cfg.forwarder)
    && spec.destinationDomain == ARC_DOMAIN && spec.destinationToken == IntoWord(ARC_USDC)
    && var call := codec.readCctp(hook.calldata);
    && call.Some? && codec.writeCctp(call.value) == hook.calldata
    && call.value.amount == spec.value && call.value.maxFee == cfg.cctpMaxFee
    && call.value.destinationDomain == burn.domain && call.value.mintRecipient == burn.recipient
    && IntoWord(call.value.burnToken) == IntoWord(ARC_USDC) && call.value.destinationCaller == Zeros(32)
    && call.value.minFinality == CCTP_FAST_FINALITY && call.value.hookData == CctpForwardMarker()
  }

  predicate BindsRedeposit(cfg: GateConfig, codec: Codec, spec: TransferSpec, hook: HookData, burn: Burn, maxFee: u64) {
    var known := XReserveDeployment(cfg.forwarder);
    && known.Some? && (spec.destinationDomain == ETHEREUM_DOMAIN || spec.destinationDomain == ARC_DOMAIN)
    && hook.contract == cfg.forwarder
    && spec.destinationRecipient == spec.destinationCaller == IntoWord(cfg.forwarder)
    && spec.sourceContract == IntoWord(known.value.wallet) && spec.destinationContract == IntoWord(known.value.minter)
    && var token := ReserveToken(known.value, spec.destinationDomain);
    && spec.destinationToken == IntoWord(token)
    && var call := codec.readRedeposit(hook.calldata);
    && call.Some? && codec.writeRedeposit(call.value) == hook.calldata
    && call.value.value == spec.value && call.value.maxFee == maxFee
    && call.value.remoteDomain == burn.domain && call.value.remoteRecipient == burn.recipient
    && call.value.localToken == token && call.value.hookData == []
  }

  predicate BindsLeg(cfg: GateConfig, codec: Codec, spec: TransferSpec, hook: HookData, burn: Burn, maxFee: u64) {
    match RouteOf(burn, hook)
    case Direct =>
      spec.destinationDomain == burn.domain && spec.destinationRecipient == burn.recipient && spec.destinationCaller == Zeros(32)
    case Forwarded => BindsCctp(cfg, codec, spec, hook, burn)
    case Redeposit => BindsRedeposit(cfg, codec, spec, hook, burn, maxFee)
  }

  /** The quote is one for this burn, whatever its amounts. */
  predicate Binds(cfg: GateConfig, codec: Codec, intent: BurnIntent, hook: HookData, burn: Burn, maxFee: u64) {
    var spec := intent.spec;
    && spec.salt == burn.note
    && BindsLeg(cfg, codec, spec, hook, burn, maxFee)
    && hook.remoteDomain == cfg.miden && hook.remoteDepositor == burn.sender && hook.remoteToken == cfg.faucet
    && spec.sourceSigner == spec.sourceDepositor
    && spec.sourceToken == IntoWord(ARC_USDC) && spec.sourceDomain == ARC_DOMAIN
  }

  lemma ForwarderExactly(cfg: GateConfig, spec: TransferSpec, hook: HookData)
    ensures FirstFailed(ForwardedChecks(cfg, spec, hook)).None? <==>
      && hook.contract == cfg.messenger
      && spec.destinationRecipient == spec.destinationCaller == IntoWord(cfg.forwarder)
      && spec.destinationDomain == ARC_DOMAIN && spec.destinationToken == IntoWord(ARC_USDC)
  {
    var a := ForwardedChecks(cfg, spec, hook);
    assert FirstFailed(a).None? ==> a[0].0 && a[1].0 && a[2].0 && a[3].0 && a[4].0;
  }

  lemma CctpCallExactly(cfg: GateConfig, call: CctpCall, spec: TransferSpec, burn: Burn)
    ensures FirstFailed(CctpChecks(cfg, call, spec, burn)).None? <==>
      && call.amount == spec.value && call.maxFee == cfg.cctpMaxFee
      && call.destinationDomain == burn.domain && call.mintRecipient == burn.recipient
      && IntoWord(call.burnToken) == spec.destinationToken && call.destinationCaller == Zeros(32)
      && call.minFinality == CCTP_FAST_FINALITY && call.hookData == CctpForwardMarker()
  {
    var b := CctpChecks(cfg, call, spec, burn);
    assert FirstFailed(b).None? ==> b[0].0 && b[1].0 && b[2].0 && b[3].0 && b[4].0 && b[5].0 && b[6].0 && b[7].0;
  }

  lemma CctpLegExactly(cfg: GateConfig, codec: Codec, spec: TransferSpec, hook: HookData, burn: Burn)
    ensures CheckForwarded(cfg, codec, spec, hook, burn).None? <==> BindsCctp(cfg, codec, spec, hook, burn)
  {
    ForwarderExactly(cfg, spec, hook);
    var call := codec.readCctp(hook.calldata);
    if call.Some? { CctpCallExactly(cfg, call.value, spec, burn); }
  }

  lemma ReserveExactly(cfg: GateConfig, known: Deployment, spec: TransferSpec, hook: HookData, token: Address)
    ensures FirstFailed(RedepositChecks(cfg, known, spec, hook, token)).None? <==>
      && hook.contract == cfg.forwarder
      && spec.destinationRecipient == spec.destinationCaller == IntoWord(cfg.forwarder)
      && spec.destinationToken == IntoWord(token)
      && spec.sourceContract == IntoWord(known.wallet) && spec.destinationContract == IntoWord(known.minter)
  {
    var a := RedepositChecks(cfg, known, spec, hook, token);
    assert FirstFailed(a).None? ==> a[0].0 && a[1].0 && a[2].0 && a[3].0 && a[4].0 && a[5].0;
  }

  lemma RemoteExactly(call: RedepositCall, spec: TransferSpec, burn: Burn, token: Address, maxFee: u64)
    ensures FirstFailed(RemoteChecks(call, spec, burn, token, maxFee)).None? <==>
      && call.value == spec.value && call.maxFee == maxFee
      && call.remoteDomain == burn.domain && call.remoteRecipient == burn.recipient
      && call.localToken == token && call.hookData == []
  {
    var b := RemoteChecks(call, spec, burn, token, maxFee);
    assert FirstFailed(b).None? ==> b[0].0 && b[1].0 && b[2].0 && b[3].0 && b[4].0 && b[5].0;
  }

  lemma RedepositLegExactly(cfg: GateConfig, codec: Codec, spec: TransferSpec, hook: HookData, burn: Burn, maxFee: u64)
    ensures CheckRedeposit(cfg, codec, spec, hook, burn, maxFee).None? <==> BindsRedeposit(cfg, codec, spec, hook, burn, maxFee)
  {
    var known := XReserveDeployment(cfg.forwarder);
    var call := codec.readRedeposit(hook.calldata);
    if known.Some? {
      ReserveExactly(cfg, known.value, spec, hook, ReserveToken(known.value, spec.destinationDomain));
      if call.Some? { RemoteExactly(call.value, spec, burn, ReserveToken(known.value, spec.destinationDomain), maxFee); }
    }
  }

  lemma LegExactly(cfg: GateConfig, codec: Codec, intent: BurnIntent, hook: HookData, burn: Burn, maxFee: u64)
    ensures CheckLeg(cfg, codec, intent, hook, burn, maxFee).None? <==> BindsLeg(cfg, codec, intent.spec, hook, burn, maxFee)
  {
    CctpLegExactly(cfg, codec, intent.spec, hook, burn);
    RedepositLegExactly(cfg, codec, intent.spec, hook, burn, maxFee);
  }

  // ---- Amounts, over the integers ----------------------------------------------------------------

  function Ceiling(cfg: GateConfig, burn: Burn): nat {
    cfg.maxFee + Share(burn.amount, cfg.bps)
  }

  /** The payout and the fee account for the burn, and the fees stay within the ceiling. */
  predicate Accounts(cfg: GateConfig, burn: Burn, value: nat, fee: nat, secondary: nat) {
    value > 0 && value + fee == burn.amount && fee + secondary <= Ceiling(cfg, burn)
  }

  lemma AmountsExactly(cfg: GateConfig, burn: Burn, value: u256, fee: u256, secondary: u64)
    ensures CheckedAdd(value, fee) == Some(Wide(burn.amount)) <==> value + fee == burn.amount
    ensures fee <= burn.amount ==>
      (SaturatingAdd(fee, Wide(secondary)) > FeeCeiling(cfg, burn.amount) <==> fee + secondary > Ceiling(cfg, burn))
  {
    CeilingIsExact(cfg, burn.amount);
    WideEnough();
  }

  lemma TermsExactly(cfg: GateConfig, codec: Codec, intent: BurnIntent, hook: HookData, burn: Burn, maxFee: u64, secondary: u64)
    requires intent.spec.salt == burn.note && BindsLeg(cfg, codec, intent.spec, hook, burn, maxFee)
    ensures CheckTerms(cfg, intent, hook, burn, secondary).None? <==>
      Binds(cfg, codec, intent, hook, burn, maxFee) && Accounts(cfg, burn, intent.spec.value, intent.maxFee, secondary)
    ensures Binds(cfg, codec, intent, hook, burn, maxFee) ==>
      CheckTerms(cfg, intent, hook, burn, secondary) ==
        if intent.spec.value == 0 || intent.spec.value + intent.maxFee != burn.amount then Some(BadAmount)
        else if intent.maxFee + secondary > Ceiling(cfg, burn) then Some(FeeTooHigh) else None
  {
    AmountsExactly(cfg, burn, intent.spec.value, intent.maxFee, secondary);
  }

  // ---- What Circle's contracts do with the signed bytes ------------------------------------------

  /** The final domain and recipient, and the least that arrives there. */
  datatype Delivery = Delivery(domain: u32, recipient: Word, least: int)

  /** The intent and its hook data, as the signed bytes carry them. */
  function Signed(response: seq<Batch>): Option<(BurnIntent, HookData)> {
    if |response| != 1 || response[0].encoded.None? then None
    else
      var intent := DecodeIntent(response[0].encoded.value);
      if intent.None? then None
      else
        var hook := DecodeHook(intent.value.spec.hookData);
        if hook.None? then None else Some((intent.value, hook.value))
  }

  /** What Circle's contracts do with an intent: pay its recipient, or pay the xReserve contract and
      have it make the call the hook names, which moves what the first leg paid. */
  function Deliver(cfg: GateConfig, codec: Codec, intent: BurnIntent, hook: HookData): Option<Delivery> {
    var spec := intent.spec;
    if hook.contract == 0 && hook.calldata == [] then
      Some(Delivery(spec.destinationDomain, spec.destinationRecipient, spec.value))
    else if spec.destinationRecipient != IntoWord(cfg.forwarder) || spec.destinationCaller != IntoWord(cfg.forwarder) then None
    else
      var cctp := codec.readCctp(hook.calldata);
      var redeposit := codec.readRedeposit(hook.calldata);
      if cctp.Some? && hook.contract == cfg.messenger && cctp.value.amount == spec.value then
        Some(Delivery(cctp.value.destinationDomain, cctp.value.mintRecipient, cctp.value.amount - cctp.value.maxFee))
      else if redeposit.Some? && hook.contract == cfg.forwarder && redeposit.value.value == spec.value then
        Some(Delivery(redeposit.value.remoteDomain, redeposit.value.remoteRecipient, redeposit.value.value - redeposit.value.maxFee))
      else None
  }

  /** Calldata is at most one of the two calls, and none when empty. */
  predicate OneCall(codec: Codec, calldata: seq<byte>) {
    && (codec.readCctp(calldata).None? || codec.readRedeposit(calldata).None?)
    && (calldata == [] ==> codec.readCctp(calldata).None? && codec.readRedeposit(calldata).None?)
  }

  /** The two calls have different selectors. */
  ghost predicate CallsDiffer(codec: Codec) {
    forall calldata :: OneCall(codec, calldata)
  }

  /** The intent is bound to the burn and its amounts add up. */
  predicate Sound(cfg: GateConfig, codec: Codec, burn: Burn, intent: BurnIntent, hook: HookData, maxFee: u64) {
    && ForwardingMaxFee(cfg, burn.domain) == Some(maxFee)
    && Binds(cfg, codec, intent, hook, burn, maxFee)
    && Accounts(cfg, burn, intent.spec.value, intent.maxFee, SecondaryFee(burn, hook, maxFee))
    && (RouteOf(burn, hook) != Direct ==> maxFee < intent.spec.value)
  }

  lemma JudgedMeans(cfg: GateConfig, codec: Codec, burn: Burn, batch: Batch, raw: RawIntent, intent: BurnIntent, hook: HookData)
    returns (maxFee: u64)
    requires Judge(cfg, codec, burn, batch, raw, intent, hook).Ok?
    ensures Sound(cfg, codec, burn, intent, hook, maxFee)
    ensures EncodeIntent(intent).Some? && EncodeIntent(intent) == batch.encoded
    ensures Judge(cfg, codec, burn, batch, raw, intent, hook).value
         == Verified(burn.note, raw, codec.signingHash(intent), codec.keccak(EncodeSpec(intent.spec).value))
  {
    maxFee := ForwardingMaxFee(cfg, burn.domain).value;
    LegExactly(cfg, codec, intent, hook, burn, maxFee);
    TermsExactly(cfg, codec, intent, hook, burn, maxFee, SecondaryFee(burn, hook, maxFee));
  }

  /** What is signed is read back from the very bytes Circle supplied. */
  lemma VerifiedMeans(cfg: GateConfig, codec: Codec, burn: Burn, response: seq<Batch>)
    returns (intent: BurnIntent, hook: HookData, maxFee: u64)
    requires Verify(cfg, codec, burn, response).Ok?
    ensures Signed(response) == Some((intent, hook))
    ensures Sound(cfg, codec, burn, intent, hook, maxFee)
    ensures EncodeSpec(intent.spec).Some?
    ensures Verify(cfg, codec, burn, response).value.note == burn.note
    ensures Verify(cfg, codec, burn, response).value.digest == codec.signingHash(intent)
    ensures Verify(cfg, codec, burn, response).value.specHash == codec.keccak(EncodeSpec(intent.spec).value)
  {
    var raw := response[0].intents[0];
    var parsed := ParseIntent(raw);
    intent, hook := parsed.value.0, parsed.value.1;
    maxFee := JudgedMeans(cfg, codec, burn, response[0], raw, intent, hook);
    IntentRoundTrip(intent);
    assert EncodeHook(hook) == Some(intent.spec.hookData) by { MalformedExactly(raw); }
    HookRoundTrip(hook);
  }

  /** The paid contract makes a call that sends the payout, less at most `fee`, where the burn asked. */
  predicate Moves(cfg: GateConfig, codec: Codec, spec: TransferSpec, hook: HookData, burn: Burn, fee: nat) {
    var cctp, redeposit := codec.readCctp(hook.calldata), codec.readRedeposit(hook.calldata);
    && hook.calldata != []
    && spec.destinationRecipient == spec.destinationCaller == IntoWord(cfg.forwarder)
    && (if cctp.Some? then
          && hook.contract == cfg.messenger && cctp.value.amount == spec.value && cctp.value.maxFee == fee
          && cctp.value.destinationDomain == burn.domain && cctp.value.mintRecipient == burn.recipient
        else
          && redeposit.Some? && hook.contract == cfg.forwarder && redeposit.value.value == spec.value
          && redeposit.value.maxFee == fee
          && redeposit.value.remoteDomain == burn.domain && redeposit.value.remoteRecipient == burn.recipient)
  }

  lemma LegMoves(cfg: GateConfig, codec: Codec, spec: TransferSpec, hook: HookData, burn: Burn, maxFee: u64)
    requires OneCall(codec, hook.calldata) && RouteOf(burn, hook) != Direct && BindsLeg(cfg, codec, spec, hook, burn, maxFee)
    ensures Moves(cfg, codec, spec, hook, burn, if RouteOf(burn, hook) == Forwarded then cfg.cctpMaxFee else maxFee)
  {}

  lemma MovesDelivers(cfg: GateConfig, codec: Codec, burn: Burn, intent: BurnIntent, hook: HookData, fee: nat)
    requires Moves(cfg, codec, intent.spec, hook, burn, fee)
    ensures Deliver(cfg, codec, intent, hook) == Some(Delivery(burn.domain, burn.recipient, intent.spec.value - fee))
  {}

  lemma DirectDelivers(cfg: GateConfig, codec: Codec, burn: Burn, intent: BurnIntent, hook: HookData, maxFee: u64)
    requires RouteOf(burn, hook) == Direct && BindsLeg(cfg, codec, intent.spec, hook, burn, maxFee)
    ensures Deliver(cfg, codec, intent, hook) == Some(Delivery(burn.domain, burn.recipient, intent.spec.value))
  {}

  /** A remote destination is signed for only if it is one of the three supported ones and its fee cap
      is configured, whatever route the reply claims to take. */
  lemma VerifiedIsSupported(cfg: GateConfig, codec: Codec, burn: Burn, response: seq<Batch>)
    requires Verify(cfg, codec, burn, response).Ok? && burn.domain >= FIRST_REMOTE_DOMAIN
    ensures burn.domain in {STACKS_DOMAIN, CARDANO_DOMAIN, MOVEMENT_DOMAIN} && cfg.redepositMaxFee.Some?
    ensures Signed(response).Some? && Signed(response).value.1.contract == cfg.forwarder
    ensures codec.readRedeposit(Signed(response).value.1.calldata).Some?
    ensures codec.readRedeposit(Signed(response).value.1.calldata).value.maxFee == cfg.redepositMaxFee.value
  {
    var intent, hook, maxFee := VerifiedMeans(cfg, codec, burn, response);
  }

  /** What the response's own bytes say, once signed: payout and fee make up the burn, and at least one
      unit, and at least the burn less the ceiling, reaches the burn's own domain and recipient. */
  predicate DeliversTheBurn(cfg: GateConfig, codec: Codec, burn: Burn, response: seq<Batch>) {
    && Signed(response).Some?
    && var (intent, hook) := Signed(response).value;
    && var delivery := Deliver(cfg, codec, intent, hook);
    && intent.spec.salt == burn.note
    && intent.spec.value + intent.maxFee == burn.amount
    && delivery.Some? && delivery.value.domain == burn.domain && delivery.value.recipient == burn.recipient
    && 1 <= delivery.value.least <= burn.amount
    && burn.amount - Ceiling(cfg, burn) <= delivery.value.least
  }

  /** Only quotes that deliver the burn get signed, and what is signed is the digest of the intent their
      bytes carry. */
  lemma VerifiedDelivers(cfg: GateConfig, codec: Codec, burn: Burn, response: seq<Batch>)
    requires CallsDiffer(codec) && Verify(cfg, codec, burn, response).Ok?
    ensures DeliversTheBurn(cfg, codec, burn, response)
    ensures Verify(cfg, codec, burn, response).value.note == burn.note
    ensures Verify(cfg, codec, burn, response).value.digest == codec.signingHash(Signed(response).value.0)
  {
    var intent, hook, maxFee := VerifiedMeans(cfg, codec, burn, response);
    assert OneCall(codec, hook.calldata);
    if RouteOf(burn, hook) == Direct {
      DirectDelivers(cfg, codec, burn, intent, hook, maxFee);
    } else {
      LegMoves(cfg, codec, intent.spec, hook, burn, maxFee);
      MovesDelivers(cfg, codec, burn, intent, hook, maxFee);
    }
  }

  /** Two byte strings that hash alike. */
  predicate Collide(codec: Codec, a: Option<seq<byte>>, b: Option<seq<byte>>) {
    a.Some? && b.Some? && a.value != b.value && codec.keccak(a.value) == codec.keccak(b.value)
  }

  /** The transfer hash names the burn: two verified withdrawals with the same hash are the same transfer
      of the same burn note, or their packed specs are two different byte strings that hash alike. */
  lemma HashNamesBurn(cfg: GateConfig, codec: Codec, burn: Burn, response: seq<Batch>, other: Burn, second: seq<Batch>)
    requires Verify(cfg, codec, burn, response).Ok? && Verify(cfg, codec, other, second).Ok?
    requires Verify(cfg, codec, burn, response).value.specHash == Verify(cfg, codec, other, second).value.specHash
    ensures Signed(response).Some? && Signed(second).Some?
    ensures var a, b := Signed(response).value.0.spec, Signed(second).value.0.spec;
      if a == b then burn.note == other.note else Collide(codec, EncodeSpec(a), EncodeSpec(b))
  {
    var a, h, _ := VerifiedMeans(cfg, codec, burn, response);
    var b, k, _ := VerifiedMeans(cfg, codec, other, second);
    EncodingsAreInjective(a, b, h, k);
  }

  // ---- Exactly which quotes pass -----------------------------------------------------------------

  /** Circle's reply for an intent, field by field. */
  function RawOf(intent: BurnIntent, hook: HookData): RawIntent {
    var spec := intent.spec;
    RawIntent(Show(intent.maxBlockHeight), Show(intent.maxFee),
      RawSpec(spec.version, spec.sourceDomain, spec.destinationDomain,
        Some(spec.sourceContract), Some(spec.destinationContract), Some(spec.sourceToken), Some(spec.destinationToken),
        Some(spec.sourceDepositor), Some(spec.destinationRecipient), Some(spec.sourceSigner), Some(spec.destinationCaller),
        Show(spec.value), Some(spec.salt),
        RawHook(hook.remoteDomain, Some(hook.remoteToken), Some(hook.remoteDepositor), Some(hook.contract), Some(hook.calldata))))
  }

  /** Parsing reads back the intent a reply was made from. */
  lemma ParsesBack(intent: BurnIntent, hook: HookData)
    requires EncodeHook(hook) == Some(intent.spec.hookData)
    ensures ParseIntent(RawOf(intent, hook)) == Ok((intent, hook))
  {
    DecimalReadsShow(intent.maxBlockHeight);
    DecimalReadsShow(intent.maxFee);
    DecimalReadsShow(intent.spec.value);
    MalformedExactly(RawOf(intent, hook));
  }

  function Quote(codec: Codec, intent: BurnIntent, hook: HookData): seq<Batch> {
    [Batch([RawOf(intent, hook)], EncodeIntent(intent), Some(codec.signingHash(intent)))]
  }

  /** The verdict on a consistent quote depends on what binds it to the burn and on four numbers:
      its payout, its fee, the second leg's fee and the ceiling. */
  lemma QuoteVerdict(cfg: GateConfig, codec: Codec, burn: Burn, intent: BurnIntent, hook: HookData, maxFee: u64)
    requires EncodeHook(hook) == Some(intent.spec.hookData) && EncodeIntent(intent).Some?
    requires ForwardingMaxFee(cfg, burn.domain) == Some(maxFee)
    ensures var verdict := Verify(cfg, codec, burn, Quote(codec, intent, hook));
      var value, fee, secondary := intent.spec.value, intent.maxFee, SecondaryFee(burn, hook, maxFee);
      && (verdict.Ok? <==> Sound(cfg, codec, burn, intent, hook, maxFee))
      && (Binds(cfg, codec, intent, hook, burn, maxFee) && !verdict.Ok? ==>
            verdict.error ==
              if value == 0 || value + fee != burn.amount then BadAmount
              else if fee + secondary > Ceiling(cfg, burn) then FeeTooHigh
              else if secondary >= burn.amount then TooSmallToForward
              else PayoutTooSmallToForward)
  {
    var raw := RawOf(intent, hook);
    var batch := Quote(codec, intent, hook)[0];
    ParsesBack(intent, hook);
    assert Verify(cfg, codec, burn, Quote(codec, intent, hook)) == Judge(cfg, codec, burn, batch, raw, intent, hook);
    JudgesQuote(cfg, codec, burn, batch, raw, intent, hook, maxFee);
  }

  lemma JudgesQuote(cfg: GateConfig, codec: Codec, burn: Burn, batch: Batch, raw: RawIntent, intent: BurnIntent, hook: HookData, maxFee: u64)
    requires CheckBytes(codec, intent, batch).None? && ForwardingMaxFee(cfg, burn.domain) == Some(maxFee)
    ensures var verdict := Judge(cfg, codec, burn, batch, raw, intent, hook);
      var value, fee, secondary := intent.spec.value, intent.maxFee, SecondaryFee(burn, hook, maxFee);
      && (verdict.Ok? <==> Sound(cfg, codec, burn, intent, hook, maxFee))
      && (Binds(cfg, codec, intent, hook, burn, maxFee) && !verdict.Ok? ==>
            verdict.error ==
              if value == 0 || value + fee != burn.amount then BadAmount
              else if fee + secondary > Ceiling(cfg, burn) then FeeTooHigh
              else if secondary >= burn.amount then TooSmallToForward
              else PayoutTooSmallToForward)
  {
    LegExactly(cfg, codec, intent, hook, burn, maxFee);
    if intent.spec.salt == burn.note && BindsLeg(cfg, codec, intent.spec, hook, burn, maxFee) {
      TermsExactly(cfg, codec, intent, hook, burn, maxFee, SecondaryFee(burn, hook, maxFee));
    }
  }

  // ---- Honest quotes pass ------------------------------------------------------------------------

  lemma PackedSize(chunks: seq<seq<byte>>, tail: seq<byte>)
    requires |tail| < 0x1_0000_0000
    ensures Pack(chunks, tail).Some? && |Pack(chunks, tail).value| == Sum(Widths(chunks)) + 4 + |tail|
  {
    var all := chunks + [BigEndian(|tail|, U32_BYTES)];
    CutJoin(all);
    assert Widths(all) == Widths(chunks) + [4];
    assert (Widths(chunks) + [4])[..|chunks|] == Widths(chunks);
  }

  lemma {:induction false} SumBound(widths: seq<nat>)
    requires forall i :: 0 <= i < |widths| ==> widths[i] <= 32
    ensures Sum(widths) <= 32 * |widths|
  {
    if |widths| > 0 { SumBound(widths[..|widths| - 1]); }
  }

  function DirectHook(cfg: GateConfig, burn: Burn): HookData {
    HookData(cfg.miden, cfg.faucet, burn.sender, 0, [])
  }

  /** The direct withdrawal of a burn that Circle charges `fee` for, from its wallet `wallet`. */
  function DirectIntent(burn: Burn, fee: u64, wallet: Word, hookData: seq<byte>): BurnIntent
    requires fee <= burn.amount
  {
    BurnIntent(Wide(0), Wide(fee),
      TransferSpec(1, ARC_DOMAIN, burn.domain, Zeros(32), Zeros(32), IntoWord(ARC_USDC), Zeros(32),
                   wallet, burn.recipient, wallet, Zeros(32), Wide(burn.amount - fee), burn.note, hookData))
  }

  lemma DirectEncodes(cfg: GateConfig, burn: Burn, fee: u64, wallet: Word) returns (hookData: seq<byte>)
    requires fee <= burn.amount
    ensures EncodeHook(DirectHook(cfg, burn)) == Some(hookData)
    ensures EncodeIntent(DirectIntent(burn, fee, wallet, hookData)).Some?
  {
    var hook := DirectHook(cfg, burn);
    PackedSize(HookChunks(hook), []);
    hookData := EncodeHook(hook).value;
    SumBound(HookWidths());
    SumBound(SpecWidths());
    var intent := DirectIntent(burn, fee, wallet, hookData);
    PackedSize(SpecChunks(intent.spec), hookData);
    PackedSize(IntentChunks(intent), EncodeSpec(intent.spec).value);
  }

  /** Whatever the burn, an honest direct quote for it passes as soon as its fee is below the burn and
      within the ceiling: the gate is not closed to what it should let through. */
  lemma HonestQuotePasses(cfg: GateConfig, codec: Codec, burn: Burn, fee: u64, wallet: Word) returns (hookData: seq<byte>)
    requires burn.domain < FIRST_REMOTE_DOMAIN && fee < burn.amount && fee <= Ceiling(cfg, burn)
    ensures Verify(cfg, codec, burn, Quote(codec, DirectIntent(burn, fee, wallet, hookData), DirectHook(cfg, burn))).Ok?
  {
    hookData := DirectEncodes(cfg, burn, fee, wallet);
    var intent, hook := DirectIntent(burn, fee, wallet, hookData), DirectHook(cfg, burn);
    assert Sound(cfg, codec, burn, intent, hook, cfg.cctpMaxFee);
    QuoteVerdict(cfg, codec, burn, intent, hook, cfg.cctpMaxFee);
  }
}
