/** The asset view of the `globaltrust_dapp` app: the user's property tokens,
    the tokenize and sale forms, the argument lists of `mintProperty` and
    `startSale`, and the handlers that send them. */
module DappAssets {
  import opened Base
  import opened JsString
  import opened JsValue
  import opened Wire
  import opened Forms
  import Auth

  /** A property token as listed, reduced to what the view shows. */
  datatype Asset = Asset(index: int, owner: string, timestamp: int)

  /** `owner.slice(0, 8)...owner.slice(-8)`. */
  function OwnerLabel(asset: Asset): string
  {
    Abbreviate(asset.owner, 8, 8)
  }

  /** An owner of at least 16 characters shows as its first and last 8. */
  lemma OwnerLabelShape(asset: Asset)
    requires |asset.owner| >= 16
    ensures var r := OwnerLabel(asset);
      |r| == 19 && r[..8] == asset.owner[..8] && r[8..11] == "..." && r[11..] == asset.owner[|asset.owner| - 8..]
  {
    AbbreviateShape(asset.owner, 8, 8);
  }

  /** The nested property record of an empty tokenize form. */
  const EmptyPropertyMetadata: Props := [
    ("title", Str("")), ("description", Str("")), ("location", Str("")),
    ("propertyType", Str("")), ("estimatedValue", Str("")), ("ipfsHash", Str(""))]

  /** The empty tokenize form. */
  const InitialTokenize: Props := [
    ("propertyMetadata", Str("")), ("fractionalShares", Num(100)),
    ("metadata", Obj([("propertyId", Null), ("sharePercentage", Num(0)),
                      ("propertyMetadata", Obj(EmptyPropertyMetadata))]))]

  /** The empty sale form. */
  const InitialSale: Props := [
    ("shares", Num(0)), ("pricePerShare", Str("")), ("startTime", Str("")), ("endTime", Str("")),
    ("minPerUser", Num(1)), ("maxPerUser", Num(100)), ("whitelist", Str(""))]

  /** The arguments of `mintProperty`. */
  datatype MintCall = MintCall(propertyId: int, shares: int, metadata: seq<Value>)

  /** `mintProperty(BigInt(propertyMetadata), BigInt(fractionalShares),
      [metadata])`, or `None` when a `BigInt` conversion throws.  The metadata
      record always travels as a one-element optional. */
  function MintArgs(form: Props): (r: Option<MintCall>)
    ensures r.Some? <==>
      BigIntOf(Get(form, "propertyMetadata")).Some? && BigIntOf(Get(form, "fractionalShares")).Some?
    ensures r.Some? ==>
      && r.value.propertyId == BigIntOf(Get(form, "propertyMetadata")).value
      && r.value.shares == BigIntOf(Get(form, "fractionalShares")).value
      && |r.value.metadata| == 1 && r.value.metadata[0] == Get(form, "metadata")
  {
    match (BigIntOf(Get(form, "propertyMetadata")), BigIntOf(Get(form, "fractionalShares")))
    case (Some(id), Some(shares)) => Some(MintCall(id, shares, [Get(form, "metadata")]))
    case _ => None
  }

  /** The empty form mints property 0 (`BigInt("")` is 0) in 100 shares. */
  lemma InitialMintArgs()
    ensures MintArgs(InitialTokenize) == Some(MintCall(0, 100, [Get(InitialTokenize, "metadata")]))
  {
    assert Get(InitialTokenize, "propertyMetadata") == Str("");
    assert Get(InitialTokenize, "fractionalShares") == Num(100);
    assert ParseBigInt("") == Some(0);
  }

  /** The arguments of `startSale`. */
  datatype SaleCall = SaleCall(
    assetIndex: int, shares: int, priceCents: int, startNanos: int, endNanos: int,
    minPerUser: int, maxPerUser: int, whitelist: seq<Value>)

  /** The `startSale` arguments for the selected asset.  `priceCents` is the
      converted price and `startMs`/`endMs` the instants the two date inputs
      parse to (`None` where `BigInt` throws on the result).  Times go out as
      milliseconds times 1,000,000 and read back as the same instants; the
      whitelist is `[w]` exactly when it is a non-empty text. */
  function SaleArgs(form: Props, asset: Asset, priceCents: Option<int>, startMs: Option<int>, endMs: Option<int>)
    : (r: Option<SaleCall>)
    ensures r.Some? <==>
      && BigIntOf(Get(form, "shares")).Some? && priceCents.Some? && startMs.Some? && endMs.Some?
      && BigIntOf(Get(form, "minPerUser")).Some? && BigIntOf(Get(form, "maxPerUser")).Some?
    ensures r.Some? ==>
      && r.value.assetIndex == asset.index
      && r.value.shares == BigIntOf(Get(form, "shares")).value
      && r.value.priceCents == priceCents.value
    ensures r.Some? ==>
      && r.value.minPerUser == BigIntOf(Get(form, "minPerUser")).value
      && r.value.maxPerUser == BigIntOf(Get(form, "maxPerUser")).value
    ensures r.Some? ==>
      && r.value.startNanos == startMs.value * NanosPerMilli
      && r.value.endNanos == endMs.value * NanosPerMilli
      && NanosToMillis(r.value.startNanos) == startMs.value
      && NanosToMillis(r.value.endNanos) == endMs.value
    ensures r.Some? ==>
      && (|r.value.whitelist| == 1 <==> Truthy(Get(form, "whitelist")))
      && |r.value.whitelist| <= 1
      && (|r.value.whitelist| == 1 ==> r.value.whitelist[0] == Get(form, "whitelist"))
  {
    var shares := BigIntOf(Get(form, "shares"));
    var minPer := BigIntOf(Get(form, "minPerUser"));
    var maxPer := BigIntOf(Get(form, "maxPerUser"));
    if shares.None? || priceCents.None? || startMs.None? || endMs.None? || minPer.None? || maxPer.None? then
      None
    else
      MillisRoundTrip(startMs.value);
      MillisRoundTrip(endMs.value);
      Some(SaleCall(asset.index, shares.value, priceCents.value,
                    MillisToNanos(startMs.value), MillisToNanos(endMs.value),
                    minPer.value, maxPer.value, OptionalOf(Get(form, "whitelist"))))
  }

  datatype FormKind = Tokenize | Sale

  class AssetPanel {
    const principal: string
    /** The handle the view calls through, `actors.propertyToken`. */
    const service: Option<Auth.Handle>
    var assets: seq<Asset>
    var loading: bool
    var error: Option<string>
    var showTokenizeModal: bool
    var showSaleModal: bool
    var selectedAsset: Option<Asset>
    var tokenizeForm: Props
    var saleForm: Props

    /** The view as first rendered; the error starts as the empty text. */
    constructor(principal: string, service: Option<Auth.Handle>)
      ensures this.principal == principal && this.service == service
      ensures assets == [] && loading && error == Some("")
      ensures !showTokenizeModal && !showSaleModal && selectedAsset.None?
      ensures tokenizeForm == InitialTokenize && saleForm == InitialSale
    {
      this.principal := principal;
      this.service := service;
      assets := [];
      loading := true;
      error := Some("");
      showTokenizeModal := false;
      showSaleModal := false;
      selectedAsset := None;
      tokenizeForm := InitialTokenize;
      saleForm := InitialSale;
    }

    /** `loadAssets`: `getUserTokens(principal)`, an empty list without a handle
        or method, the old list and a failure note when the call rejects. */
    method LoadAssets(call: ListCall<Asset>)
      modifies this`assets, this`loading, this`error
      ensures !loading
      ensures var c := if service.None? then MethodMissing else call;
        if c.CallThrew? then assets == old(assets) && error == Some("Failed to load assets")
        else assets == ListOrEmpty(c) && error.None?
    {
      loading := true;
      error := None;
      var c := if service.None? then MethodMissing else call;
      if c.CallThrew? {
        error := Some("Failed to load assets");
      } else {
        assets := ListOrEmpty(c);
      }
      loading := false;
    }

    /** `handleTokenizeSubmit`.  The call is made with `MintArgs` of the form
        when there is a handle and the conversions succeed.  Success is an
        `Ok` key (capitalised): the list is reloaded, the modal closes and the
        form is reset to exactly its initial value.  An `Err` result names its
        first key; a throw reports the bare failure. */
    method HandleTokenizeSubmit(reply: Reply<UpperResult<Value>>, reload: ListCall<Asset>)
      returns (sent: Option<MintCall>)
      modifies this`assets, this`loading, this`error, this`showTokenizeModal, this`tokenizeForm
      ensures sent.Some? <==> service.Some? && MintArgs(old(tokenizeForm)).Some?
      ensures sent.Some? ==> sent == MintArgs(old(tokenizeForm))
      ensures (sent.None? || reply.Threw?) ==>
        && error == Some("Failed to tokenize asset")
        && assets == old(assets) && loading == old(loading)
        && showTokenizeModal == old(showTokenizeModal) && tokenizeForm == old(tokenizeForm)
      ensures sent.Some? && reply.Resolved? && reply.value.UpperErr? ==>
        && error == Some(FailureText("Failed to tokenize asset", reply.value.errValue))
        && assets == old(assets) && loading == old(loading)
        && showTokenizeModal == old(showTokenizeModal) && tokenizeForm == old(tokenizeForm)
      ensures sent.Some? && reply.Resolved? && reply.value.UpperOk? ==>
        && !showTokenizeModal && tokenizeForm == InitialTokenize && !loading
        && (if reload.CallThrew? then assets == old(assets) && error == Some("Failed to load assets")
            else assets == ListOrEmpty(reload) && error.None?)
    {
      error := None;
      var args := MintArgs(tokenizeForm);
      if service.None? || args.None? {
        error := Some("Failed to tokenize asset");
        return None;
      }
      sent := args;
      match reply {
        case Threw =>
          error := Some("Failed to tokenize asset");
        case Resolved(result) =>
          if result.UpperOk? {
            LoadAssets(reload);
            showTokenizeModal := false;
            tokenizeForm := InitialTokenize;
          } else {
            error := Some(FailureText("Failed to tokenize asset", result.errValue));
          }
      }
    }

    /** `handleSaleSubmit` for the selected asset.  Success is an `ok` key
        (lower case): the modal closes and the form is reset to exactly its
        initial value; the list is not reloaded.  An `err` result names its
        first key; a throw (including no selected asset) reports the bare
        failure. */
    method HandleSaleSubmit(priceCents: Option<int>, startMs: Option<int>, endMs: Option<int>,
                            reply: Reply<LowerResult<Value>>)
      returns (sent: Option<SaleCall>)
      modifies this`error, this`showSaleModal, this`saleForm
      ensures sent.Some? <==>
        (service.Some? && selectedAsset.Some?
         && SaleArgs(old(saleForm), selectedAsset.value, priceCents, startMs, endMs).Some?)
      ensures sent.Some? ==> sent == SaleArgs(old(saleForm), selectedAsset.value, priceCents, startMs, endMs)
      ensures (sent.None? || reply.Threw?) ==>
        error == Some("Failed to start sale") && showSaleModal == old(showSaleModal) && saleForm == old(saleForm)
      ensures sent.Some? && reply.Resolved? && reply.value.LowerErr? ==>
        && error == Some(FailureText("Failed to start sale", reply.value.err))
        && showSaleModal == old(showSaleModal) && saleForm == old(saleForm)
      ensures sent.Some? && reply.Resolved? && reply.value.LowerOk? ==>
        !showSaleModal && saleForm == InitialSale && error.None?
    {
      error := None;
      if service.None? || selectedAsset.None? {
        error := Some("Failed to start sale");
        return None;
      }
      var args := SaleArgs(saleForm, selectedAsset.value, priceCents, startMs, endMs);
      if args.None? {
        error := Some("Failed to start sale");
        return None;
      }
      sent := args;
      match reply {
        case Threw =>
          error := Some("Failed to start sale");
        case Resolved(result) =>
          if result.LowerOk? {
            showSaleModal := false;
            saleForm := InitialSale;
          } else {
            error := Some(FailureText("Failed to start sale", result.err));
          }
      }
    }

    /** `handleInputChange(form, setForm)`: the typed text goes into the chosen
        form through the two-part dotted update; the other form is untouched. */
    method HandleInputChange(which: FormKind, name: string, value: string)
      modifies this`tokenizeForm, this`saleForm
      ensures which == Tokenize ==>
        tokenizeForm == DottedUpdate(old(tokenizeForm), name, Str(value)) && saleForm == old(saleForm)
      ensures which == Sale ==>
        saleForm == DottedUpdate(old(saleForm), name, Str(value)) && tokenizeForm == old(tokenizeForm)
    {
      if which == Tokenize {
        tokenizeForm := DottedUpdate(tokenizeForm, name, Str(value));
      } else {
        saleForm := DottedUpdate(saleForm, name, Str(value));
      }
    }

    /** The List for Sale button: select the asset and open the sale modal. */
    method OpenSale(asset: Asset)
      modifies this`selectedAsset, this`showSaleModal
      ensures selectedAsset == Some(asset) && showSaleModal
    {
      selectedAsset := Some(asset);
      showSaleModal := true;
    }

    /** The Tokenize Asset button. */
    method OpenTokenize()
      modifies this`showTokenizeModal
      ensures showTokenizeModal
    {
      showTokenizeModal := true;
    }
  }
}
