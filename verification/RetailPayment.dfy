/** The x402 payment loop of retail_context/x402_payment.py: requirement, verify, settle, reconcile, access test. */
module RetailPayment {
  import opened Wrappers

  const X402_VERSION := 2
  const PAYMENT_SCHEME := "exact"
  const PAYMENT_NETWORK := "eip155:8453"
  const PAYMENT_ASSET := "0x833589fCD6eDb6E08f4c7C32D4f71b54bdA02913"
  const MAX_TIMEOUT_SECONDS := 60
  const PRICING_MODEL := "pay_per_context_resource"
  const AUTHORITY_EFFECT := "none"
  const ACCESS_EFFECT := "context_resource_access_only"

  datatype Terms = Terms(
    x402Version: int, scheme: string, network: string, asset: string, amount: string, wallet: string,
    maxTimeout: int, resourceType: string, resourceUri: string, pricingModel: string,
    authorityEffect: string, accessEffect: string)

  /** A truncated SHA-256 over a prefix and its parts, taken as injective: one constructor per prefix. */
  datatype StableId =
    | RequirementId(terms: Terms)
    | ReceiptId(requirement: StableId, transaction: string, payer: Option<string>, network: string, amount: string)
    | FailedReceiptId(requirement: StableId, verification: Stage, settlement: Stage, reason: string,
      reference: Option<string>)
    | ClaimId(receipt: StableId, network: string, transaction: string)

  datatype Stage = NotAttempted | Failed | Succeeded

  datatype Requirement = Requirement(id: StableId, terms: Terms)

  datatype Metadata = Metadata(
    requirement: StableId, resourceType: string, resourceUri: string, pricingModel: string,
    authorityEffect: string, accessEffect: string)

  datatype Offer = Offer(
    scheme: string, network: string, asset: string, amount: string, payTo: string, maxTimeout: int, nova: Metadata)

  /** A decoded payment payload; wellFormed says whether the x402 model accepts it. */
  datatype Payload = Payload(
    version: Option<int>, wellFormed: bool, accepted: Offer, resourceUrl: Option<string>, nova: Option<Metadata>)

  datatype VerifyReply = VerifyRaised | VerifyReply(isValid: bool, payer: Option<string>)

  /** A settlement answer; an absent or wrongly typed field is None. */
  datatype SettleReply =
    | SettleRaised
    | SettleReply(success: bool, payer: Option<string>, transaction: Option<string>,
                  network: Option<string>, amount: Option<string>)

  datatype Receipt = Receipt(
    id: StableId, requirement: StableId, resourceType: string, resourceUri: string, pricingModel: string,
    verification: Stage, settlement: Stage, permitted: bool, payer: Option<string>, network: string, asset: string,
    amount: string, wallet: string, transaction: Option<string>, failureReason: Option<string>,
    authorityEffect: string, accessEffect: string)

  /** A receipt plus the process-local capability, which serialization loses. */
  datatype Outcome = Outcome(receipt: Receipt, capability: bool)

  // ---- white space ----

  /** The characters Python's str.strip removes. */
  predicate IsSpace(c: char) {
    var n := c as int;
    9 <= n <= 13 || 28 <= n <= 32 || n == 0x85 || n == 0xA0 || n == 0x1680 || 0x2000 <= n <= 0x200A ||
    n == 0x2028 || n == 0x2029 || n == 0x202F || n == 0x205F || n == 0x3000
  }

  function StripLeft(s: string): string {
    if s != [] && IsSpace(s[0]) then StripLeft(s[1..]) else s
  }

  function StripRight(s: string): string {
    if s != [] && IsSpace(s[|s| - 1]) then StripRight(s[..|s| - 1]) else s
  }

  function Strip(s: string): string { StripRight(StripLeft(s)) }

  ghost predicate Blank(s: string) { forall i :: 0 <= i < |s| ==> IsSpace(s[i]) }

  ghost predicate IsCore(s: string, core: string) {
    (core != [] ==> !IsSpace(core[0]) && !IsSpace(core[|core| - 1])) &&
    exists before: string, after: string :: Surrounds(s, before, core, after)
  }

  ghost predicate Surrounds(s: string, before: string, core: string, after: string) {
    Blank(before) && Blank(after) && s == before + core + after
  }

  lemma {:induction false} StripLeftSplits(s: string) returns (before: string)
    ensures Blank(before) && s == before + StripLeft(s)
    ensures StripLeft(s) != [] ==> !IsSpace(StripLeft(s)[0])
  {
    if s != [] && IsSpace(s[0]) {
      var rest := StripLeftSplits(s[1..]);
      before := [s[0]] + rest;
    } else {
      before := [];
    }
  }

  lemma {:induction false} StripRightSplits(s: string) returns (after: string)
    ensures Blank(after) && s == StripRight(s) + after
    ensures StripRight(s) != [] ==> !IsSpace(StripRight(s)[|StripRight(s)| - 1])
  {
    if s != [] && IsSpace(s[|s| - 1]) {
      var rest := StripRightSplits(s[..|s| - 1]);
      after := rest + [s[|s| - 1]];
    } else {
      after := [];
    }
  }

  /** Stripping leaves the text between the outer white space, and nothing exactly when the text is blank. */
  lemma StripIsCore(s: string)
    ensures IsCore(s, Strip(s))
    ensures Strip(s) == [] <==> Blank(s)
  {
    hide IsSpace;
    var before := StripLeftSplits(s);
    var after := StripRightSplits(StripLeft(s));
    assert s == before + Strip(s) + after;
    assert Surrounds(s, before, Strip(s), after);
    if Strip(s) != [] {
      assert Strip(s)[0] == StripLeft(s)[0];
      assert s[|before|] == Strip(s)[0];
    }
  }

  // ---- requirement ----

  function CatalogPrice(resourceType: string): Option<string> {
    if resourceType == "state_ping" then Some("2000")
    else if resourceType == "context_delta" then Some("20000")
    else None
  }

  function BuildRequirement(resourceType: string, resourceUri: string, wallet: Option<string>): Result<Requirement,
      string> {
    if CatalogPrice(resourceType).None? || Strip(resourceUri) == "" then Err("resource_not_payable")
    else if wallet.None? || Strip(wallet.value) == "" then Err("settlement_wallet_not_configured")
    else
      var terms := Terms(X402_VERSION, PAYMENT_SCHEME, PAYMENT_NETWORK, PAYMENT_ASSET,
                         CatalogPrice(resourceType).value, Strip(wallet.value), MAX_TIMEOUT_SECONDS,
                         resourceType, Strip(resourceUri), PRICING_MODEL, AUTHORITY_EFFECT, ACCESS_EFFECT);
      Ok(Requirement(RequirementId(terms), terms))
  }

  function OfferOf(r: Requirement): Offer {
    Offer(r.terms.scheme, r.terms.network, r.terms.asset, r.terms.amount, r.terms.wallet, r.terms.maxTimeout,
          Metadata(r.id, r.terms.resourceType, r.terms.resourceUri, PRICING_MODEL, AUTHORITY_EFFECT, ACCESS_EFFECT))
  }

  // ---- verify, settle, reconcile ----

  function Failure(r: Requirement, reason: string, verification: Stage, settlement: Stage,
                   payer: Option<string>, reference: Option<string>): Outcome {
    Outcome(Receipt(FailedReceiptId(r.id, verification, settlement, reason, reference), r.id,
                    r.terms.resourceType, r.terms.resourceUri, PRICING_MODEL, verification, settlement, false, payer,
                    r.terms.network, r.terms.asset, r.terms.amount, r.terms.wallet, reference, Some(reason),
                    AUTHORITY_EFFECT, ACCESS_EFFECT), false)
  }

  function Success(r: Requirement, payer: Option<string>, transaction: string): Outcome {
    Outcome(Receipt(ReceiptId(r.id, transaction, payer, r.terms.network, r.terms.amount), r.id,
                    r.terms.resourceType, r.terms.resourceUri, PRICING_MODEL, Succeeded, Succeeded, true, payer,
                    r.terms.network, r.terms.asset, r.terms.amount, r.terms.wallet, Some(transaction), None,
                    AUTHORITY_EFFECT, ACCESS_EFFECT), true)
  }

  predicate SupportedVersion(p: Payload) { p.version == None || p.version == Some(X402_VERSION) }

  predicate PayloadMatches(p: Payload, r: Requirement) {
    p.accepted == OfferOf(r) && p.resourceUrl == Some(r.terms.resourceUri) && p.nova == Some(OfferOf(r).nova)
  }

  function FirstNonempty(a: Option<string>, b: Option<string>): Option<string> {
    if a.Some? && a.value != "" then a else b
  }

  function Reconcile(r: Requirement, verifiedPayer: Option<string>, s: SettleReply): Outcome
    requires s.SettleReply?
  {
    var payer := FirstNonempty(s.payer, verifiedPayer);
    if !s.success then Failure(r, "payment_settlement_failed", Succeeded, Failed, payer, s.transaction)
    else if s.transaction.None? || Strip(s.transaction.value) == "" then
      Failure(r, "settlement_reference_missing", Succeeded, Failed, payer, None)
    else
      var transaction := Strip(s.transaction.value);
      if s.network != Some(r.terms.network) then
        Failure(r, "settlement_network_mismatch", Succeeded, Failed, payer, Some(transaction))
      else if s.amount != Some(r.terms.amount) then
        Failure(r, "settlement_amount_mismatch", Succeeded, Failed, payer, Some(transaction))
      else Success(r, payer, transaction)
  }

  function Process(r: Requirement, p: Payload, v: VerifyReply, s: SettleReply): Result<Outcome, string> {
    if r.id != RequirementId(r.terms) then Err("invalid_payment_requirement")
    else if !SupportedVersion(p) then Ok(Failure(r, "unsupported_x402_version", NotAttempted, NotAttempted, None, None))
    else if !p.wellFormed || !PayloadMatches(p, r) then
      Ok(Failure(r, "invalid_payment_payload", NotAttempted, NotAttempted, None, None))
    else if v.VerifyRaised? then Ok(Failure(r, "payment_verification_failed", Failed, NotAttempted, None, None))
    else if !v.isValid then Ok(Failure(r, "payment_verification_failed", Failed, NotAttempted, v.payer, None))
    else if s.SettleRaised? then Ok(Failure(r, "payment_settlement_failed", Succeeded, Failed, v.payer, None))
    else Ok(Reconcile(r, v.payer, s))
  }

  // ---- access ----

  /** The terms the access test rebuilds from a receipt. */
  function ReceiptTerms(t: Receipt): Terms {
    Terms(X402_VERSION, PAYMENT_SCHEME, t.network, t.asset, t.amount, t.wallet, MAX_TIMEOUT_SECONDS, t.resourceType,
          t.resourceUri, t.pricingModel, t.authorityEffect, t.accessEffect)
  }

  predicate AllowsAccess(o: Outcome) {
    var t := o.receipt;
    o.capability && t.verification == Succeeded && t.settlement == Succeeded && t.permitted &&
    t.authorityEffect == AUTHORITY_EFFECT && t.accessEffect == ACCESS_EFFECT && t.failureReason.None? &&
    t.transaction.Some? && t.transaction.value != "" &&
    CatalogPrice(t.resourceType) == Some(t.amount) &&
    t.requirement == RequirementId(ReceiptTerms(t)) &&
    t.id == ReceiptId(t.requirement, t.transaction.value, t.payer, t.network, t.amount)
  }

  /** Terms carry the fixed protocol values and the catalog price of their resource. */
  ghost predicate CatalogTerms(t: Terms) {
    t.x402Version == 2 && t.scheme == "exact" && t.maxTimeout == 60 && t.pricingModel == "pay_per_context_resource" &&
    t.authorityEffect == "none" && t.accessEffect == "context_resource_access_only" &&
    ((t.resourceType == "state_ping" && t.amount == "2000") ||
      (t.resourceType == "context_delta" && t.amount == "20000"))
  }

  /** The payload repeats the offer: its accepted terms, its resource and the description of the requirement. */
  ghost predicate RepeatsOffer(p: Payload, r: Requirement) {
    var a := p.accepted;
    a.scheme == r.terms.scheme && a.network == r.terms.network && a.asset == r.terms.asset &&
    a.amount == r.terms.amount && a.payTo == r.terms.wallet && a.maxTimeout == r.terms.maxTimeout &&
    DescribesRequirement(a.nova, r) && p.nova.Some? && DescribesRequirement(p.nova.value, r) &&
    p.resourceUrl == Some(r.terms.resourceUri)
  }

  ghost predicate DescribesRequirement(m: Metadata, r: Requirement) {
    m.requirement == r.id && m.resourceType == r.terms.resourceType && m.resourceUri == r.terms.resourceUri &&
    m.pricingModel == "pay_per_context_resource" && m.authorityEffect == "none" &&
    m.accessEffect == "context_resource_access_only"
  }

  ghost predicate OldOrCurrent(p: Payload) { p.version.None? || p.version.value == 2 }

  lemma MatchesIsRepeats(p: Payload, r: Requirement)
    ensures PayloadMatches(p, r) <==> RepeatsOffer(p, r)
    ensures SupportedVersion(p) <==> OldOrCurrent(p)
  {
  }

  /** The settlement names a transaction and moved exactly the asked amount on the asked network. */
  ghost predicate SettlesInFull(t: Terms, s: SettleReply) {
    s.SettleReply? && s.success && s.transaction.Some? && !Blank(s.transaction.value) &&
    s.network == Some(t.network) && s.amount == Some(t.amount)
  }

  ghost predicate PaidFor(r: Requirement, p: Payload, v: VerifyReply, s: SettleReply) {
    r.id == RequirementId(r.terms) && CatalogTerms(r.terms) &&
    OldOrCurrent(p) && p.wellFormed && RepeatsOffer(p, r) &&
    v.VerifyReply? && v.isValid && SettlesInFull(r.terms, s)
  }

  lemma NoCapability(t: Receipt)
    ensures !AllowsAccess(Outcome(t, false))
  {
  }

  lemma FailureAllowsNothing(r: Requirement, reason: string, verification: Stage, settlement: Stage,
                             payer: Option<string>, reference: Option<string>)
    ensures !AllowsAccess(Failure(r, reason, verification, settlement, payer, reference))
  {
  }

  lemma SuccessAllows(r: Requirement, payer: Option<string>, transaction: string)
    requires r.id == RequirementId(r.terms)
    ensures AllowsAccess(Success(r, payer, transaction)) <==> CatalogTerms(r.terms) && transaction != ""
  {
    var t := Success(r, payer, transaction).receipt;
    assert ReceiptTerms(t) == r.terms <==>
      r.terms.x402Version == 2 && r.terms.scheme == "exact" && r.terms.maxTimeout == 60 &&
      r.terms.pricingModel == "pay_per_context_resource" && r.terms.authorityEffect == "none" &&
      r.terms.accessEffect == "context_resource_access_only";
  }

  /**
   * Access is granted exactly when the payment was verified, settled in full and asked at the catalog price; a receipt
   * read back from storage has lost the capability and buys nothing, whatever it says.
   */
  lemma AccessIffPaid(r: Requirement, p: Payload, v: VerifyReply, s: SettleReply)
    ensures forall t: Receipt :: !AllowsAccess(Outcome(t, false))
    ensures (Process(r, p, v, s).Ok? && AllowsAccess(Process(r, p, v, s).value)) <==> PaidFor(r, p, v, s)
  {
    hide AllowsAccess, Strip, Blank, CatalogPrice, RepeatsOffer, PayloadMatches, SupportedVersion, OldOrCurrent;
    MatchesIsRepeats(p, r);
    forall t: Receipt ensures !AllowsAccess(Outcome(t, false)) { NoCapability(t); }
    forall reason, verification, settlement, payer, reference
      ensures !AllowsAccess(Failure(r, reason, verification, settlement, payer, reference))
    {
      FailureAllowsNothing(r, reason, verification, settlement, payer, reference);
    }
    if s.SettleReply? && s.transaction.Some? {
      StripIsCore(s.transaction.value);
      if r.id == RequirementId(r.terms) && v.VerifyReply? {
        SuccessAllows(r, FirstNonempty(s.payer, v.payer), Strip(s.transaction.value));
      }
    }
  }

  /**
   * A requirement exists exactly for a priced resource, a usable URI and a wallet; it always asks the catalog
   * terms.
   */
  lemma BuiltTermsAreCatalogTerms(resourceType: string, resourceUri: string, wallet: Option<string>)
    ensures var b := BuildRequirement(resourceType, resourceUri, wallet);
            if (resourceType != "state_ping" && resourceType != "context_delta") || Blank(resourceUri) then
              b == Err("resource_not_payable")
            else if wallet.None? || Blank(wallet.value) then b == Err("settlement_wallet_not_configured")
            else b.Ok?
    ensures var b := BuildRequirement(resourceType, resourceUri, wallet);
            b.Ok? ==> b.value.id == RequirementId(b.value.terms) && CatalogTerms(b.value.terms) &&
                      b.value.terms.resourceType == resourceType && IsCore(resourceUri, b.value.terms.resourceUri) &&
                      IsCore(wallet.value, b.value.terms.wallet) && b.value.terms.network == "eip155:8453" &&
                      b.value.terms.asset == "0x833589fCD6eDb6E08f4c7C32D4f71b54bdA02913"
  {
    hide Strip, Blank, IsCore;
    StripIsCore(resourceUri);
    if wallet.Some? { StripIsCore(wallet.value); }
  }

  /**
   * A settlement that went through but is not honoured is refused for its network or its amount, and its receipt keeps
   * the transaction reference; every other refusal says that nothing usable was settled.
   */
  lemma SettledButRefused(r: Requirement, p: Payload, v: VerifyReply, s: SettleReply)
    requires Process(r, p, v, s).Ok?
    ensures var t := Process(r, p, v, s).value.receipt;
            (t.settlement == Succeeded <==> t.failureReason.None?) && (t.permitted <==> t.failureReason.None?) &&
            (t.failureReason == Some("settlement_network_mismatch") ||
              t.failureReason == Some("settlement_amount_mismatch") <==>
             t.failureReason.Some? && OldOrCurrent(p) && p.wellFormed && RepeatsOffer(p, r) && v.VerifyReply? &&
             v.isValid &&
             s.SettleReply? && s.success && s.transaction.Some? && !Blank(s.transaction.value))
    ensures var t := Process(r, p, v, s).value.receipt;
            t.failureReason == Some("settlement_network_mismatch") ||
            t.failureReason == Some("settlement_amount_mismatch") ==>
              t.transaction.Some? && IsCore(s.transaction.value, t.transaction.value) && t.transaction.value != "" &&
              (s.network != Some(r.terms.network) || s.amount != Some(r.terms.amount))
  {
    hide Strip, Blank, IsCore, PayloadMatches, RepeatsOffer, OldOrCurrent, SupportedVersion;
    MatchesIsRepeats(p, r);
    if s.SettleReply? && s.transaction.Some? { StripIsCore(s.transaction.value); }
  }

  /** The payload is of a supported version, well formed, and repeats the offer. */
  ghost predicate PayloadAccepted(p: Payload, r: Requirement) {
    OldOrCurrent(p) && p.wellFormed && RepeatsOffer(p, r)
  }

  ghost predicate Verified(p: Payload, r: Requirement, v: VerifyReply) {
    PayloadAccepted(p, r) && v.VerifyReply? && v.isValid
  }

  /** A settlement went through and named a transaction. */
  ghost predicate Referenced(s: SettleReply) {
    s.SettleReply? && s.success && s.transaction.Some? && !Blank(s.transaction.value)
  }

  /**
   * What every receipt says: the terms it was asked for, how far the payment came, who paid (the settlement's payer if
   * it names one, else the verified one), and the first thing that went wrong.
   */
  lemma ReceiptSays(r: Requirement, p: Payload, v: VerifyReply, s: SettleReply)
    requires Process(r, p, v, s).Ok?
    ensures var t := Process(r, p, v, s).value.receipt;
            t.requirement == r.id && t.resourceType == r.terms.resourceType && t.resourceUri == r.terms.resourceUri &&
            t.network == r.terms.network && t.asset == r.terms.asset && t.amount == r.terms.amount &&
            t.wallet == r.terms.wallet
    ensures var t := Process(r, p, v, s).value.receipt;
            t.verification == (if Verified(p, r, v) then Succeeded else if PayloadAccepted(p, r) then Failed
              else NotAttempted)
    ensures var t := Process(r, p, v, s).value.receipt;
            t.settlement == (if !Verified(p, r, v) then NotAttempted
                             else if SettlesInFull(r.terms, s) then Succeeded else Failed)
    ensures var t := Process(r, p, v, s).value.receipt;
            t.payer == (if !PayloadAccepted(p, r) || v.VerifyRaised? then None
                        else if v.isValid && s.SettleReply? && s.payer.Some? && s.payer.value != "" then s.payer
                        else v.payer)
    ensures var t := Process(r, p, v, s).value.receipt;
            t.failureReason ==
              (if !OldOrCurrent(p) then Some("unsupported_x402_version")
               else if !PayloadAccepted(p, r) then Some("invalid_payment_payload")
               else if !Verified(p, r, v) then Some("payment_verification_failed")
               else if s.SettleRaised? || !s.success then Some("payment_settlement_failed")
               else if !Referenced(s) then Some("settlement_reference_missing")
               else if s.network != Some(r.terms.network) then Some("settlement_network_mismatch")
               else if s.amount != Some(r.terms.amount) then Some("settlement_amount_mismatch")
               else None)
  {
    hide Strip, Blank, PayloadMatches, RepeatsOffer, OldOrCurrent, SupportedVersion;
    MatchesIsRepeats(p, r);
    if s.SettleReply? && s.transaction.Some? { StripIsCore(s.transaction.value); }
  }

  /**
   * The reference a receipt keeps, as it was settled, and the parts its id is derived from. A failed settlement keeps
   * whatever reference it named.
   */
  lemma ReceiptRefers(r: Requirement, p: Payload, v: VerifyReply, s: SettleReply)
    requires Process(r, p, v, s).Ok?
    ensures var t := Process(r, p, v, s).value.receipt;
            if !Verified(p, r, v) || s.SettleRaised? then t.transaction == None
            else if !s.success then t.transaction == s.transaction
            else if !Referenced(s) then t.transaction == None
            else t.transaction.Some? && IsCore(s.transaction.value, t.transaction.value)
    ensures var t := Process(r, p, v, s).value.receipt;
            t.id == match t.failureReason
                    case Some(reason) => FailedReceiptId(r.id, t.verification, t.settlement, reason, t.transaction)
                    case None =>
                      ReceiptId(r.id, if t.transaction.Some? then t.transaction.value else "", t.payer, t.network,
                        t.amount)
    ensures var o := Process(r, p, v, s).value;
            (o.capability <==> o.receipt.failureReason.None?) && (o.receipt.permitted <==> o.capability)
  {
    hide Strip, Blank, PayloadMatches, RepeatsOffer, OldOrCurrent, SupportedVersion, IsCore;
    MatchesIsRepeats(p, r);
    if s.SettleReply? && s.transaction.Some? { StripIsCore(s.transaction.value); }
  }
}
