/** The NFT view of the `gt_frontend` app (`AssetManagement`): the mint form,
    the metadata record it sends, the status badge, and the token and
    certificate lookups. */
module GtAssets {
  import opened Base
  import opened JsString
  import opened JsValue
  import opened Wire
  import Auth

  /** The names of the mint form's inputs. */
  const FormFields: set<string> := {"ipfs_cid", "rwa_type", "submission_id", "attestation_ids", "verification_hash"}

  /** The empty mint form. */
  const InitialForm: map<string, string> := map k | k in FormFields :: ""

  /** `text.split(",").map(s => s.trim())`. */
  function AttestationIds(text: string): (ids: seq<string>)
    ensures |ids| == Count(text, ',') + 1
    ensures forall i :: 0 <= i < |ids| ==> ',' !in ids[i] && Trim(ids[i]) == ids[i]
  {
    var parts := Split(text, ',');
    var ids := seq(|parts|, i requires 0 <= i < |parts| => Trim(parts[i]));
    forall i | 0 <= i < |ids|
      ensures ',' !in ids[i] && Trim(ids[i]) == ids[i]
    {
      TrimShape(parts[i]);
      TrimIdempotent(parts[i]);
      assert forall c :: c in ids[i] ==> c in parts[i];
    }
    ids
  }

  /** Ids without commas and without surrounding blanks, joined by commas, are
      read back exactly; an empty input gives one empty id. */
  lemma AttestationIdsRoundTrip(ids: seq<string>)
    requires |ids| >= 1
    requires forall i :: 0 <= i < |ids| ==> ',' !in ids[i] && Trim(ids[i]) == ids[i]
    ensures AttestationIds(Join(ids, ',')) == ids
    ensures AttestationIds("") == [""]
  {
    SplitJoin(ids, ',');
    assert Trim("") == "" by { TrimUnchanged(""); }
  }

  /** The metadata record `mintRwaNft` is sent. */
  datatype RwaMetadata = RwaMetadata(
    ipfsCid: string, rwaType: string, submissionId: string, attestationIds: seq<string>,
    verificationHash: string, lienActive: bool, collateralized: bool, frozen: bool)

  /** The record built from the form: the texts as typed, the attestation ids
      split and trimmed, and the three flags always off. */
  function MintMetadata(form: map<string, string>): (m: RwaMetadata)
    requires FormFields <= form.Keys
    ensures !m.lienActive && !m.collateralized && !m.frozen
    ensures m.attestationIds == AttestationIds(form["attestation_ids"])
    ensures m.ipfsCid == form["ipfs_cid"] && m.rwaType == form["rwa_type"]
    ensures m.submissionId == form["submission_id"] && m.verificationHash == form["verification_hash"]
  {
    RwaMetadata(form["ipfs_cid"], form["rwa_type"], form["submission_id"],
                AttestationIds(form["attestation_ids"]), form["verification_hash"], false, false, false)
  }

  datatype Badge = ErrorBadge | SuccessBadge

  /** The status badge: none for an absent or empty status, the error style
      when the text contains "fail", the success style otherwise. */
  function BadgeFor(status: Option<string>): (b: Option<Badge>)
    ensures b.None? <==> status.None? || status.value == ""
    ensures b == Some(ErrorBadge) <==> status.Some? && status.value != "" && Includes(status.value, "fail")
  {
    if status.None? || status.value == "" then None
    else if Includes(status.value, "fail") then Some(ErrorBadge)
    else Some(SuccessBadge)
  }

  const Minted: string := "NFT minted!"
  const MintFailed: string := "Mint failed."

  /** The two texts the mint handler writes get the two badge styles. */
  lemma MintBadges(failed: string, minted: string)
    requires failed == MintFailed && minted == Minted
    ensures BadgeFor(Some(failed)) == Some(ErrorBadge)
    ensures BadgeFor(Some(minted)) == Some(SuccessBadge)
  {
    assert failed == "Mint " + "fail" + "ed.";
    IncludesInfix("Mint ", "fail", "ed.");
    if Includes(minted, "fail") {
      IncludesFirstChar(minted, "fail");
    }
  }

  /** What `fetchToken` stores: the owner and metadata replies. */
  datatype TokenData = TokenData(owner: Value, meta: Value)

  class NftPanel {
    const principal: string
    /** The handle the view calls through, `actors.rwaNft`. */
    const service: Option<Auth.Handle>
    var form: map<string, string>
    var status: Option<string>
    var tokenId: Option<string>
    var tokenData: Option<TokenData>
    var certVisible: bool
    var certData: Value

    /** Every input of the form has a value. */
    ghost predicate Valid()
      reads this
    {
      FormFields <= form.Keys
    }

    /** The view as first rendered: an empty form and nothing else. */
    constructor(principal: string, service: Option<Auth.Handle>)
      ensures Valid()
      ensures this.principal == principal && this.service == service
      ensures form == InitialForm && status.None? && tokenId.None? && tokenData.None?
      ensures !certVisible && certData == Null
    {
      this.principal := principal;
      this.service := service;
      form := InitialForm;
      status := None;
      tokenId := None;
      tokenData := None;
      certVisible := false;
      certData := Null;
    }

    /** `handleChange`: `{...form, [name]: value}`. */
    method HandleChange(name: string, value: string)
      requires Valid()
      modifies this`form
      ensures Valid() && form == old(form)[name := value]
    {
      form := form[name := value];
    }

    /** The token id input. */
    method SetTokenId(value: string)
      modifies this`tokenId
      ensures tokenId == Some(value)
    {
      tokenId := Some(value);
    }

    /** `handleMint`.  Status, token id, token data and certificate are cleared
        first; the record `MintMetadata(form)` is sent when there is a handle.
        An `ok` result whose payload converts to text sets the token id to that
        text and the status to "NFT minted!"; everything else (an `err`
        result, a throw, a payload `toString` throws on) sets "Mint failed.".
        The success badge is shown exactly after a mint. */
    method HandleMint(reply: Reply<LowerResult<Value>>) returns (sent: Option<RwaMetadata>)
      requires Valid()
      modifies this`status, this`tokenId, this`tokenData, this`certData
      ensures Valid()
      ensures sent.Some? <==> service.Some?
      ensures sent.Some? ==> sent.value == MintMetadata(form)
      ensures tokenData.None? && certData == Null
      ensures var minted := sent.Some? && reply.Resolved? && reply.value.LowerOk? && !Nullish(reply.value.ok);
        && (minted ==> tokenId == Some(Display(reply.value.ok)) && status == Some(Minted))
        && (!minted ==> tokenId.None? && status == Some(MintFailed))
        && (BadgeFor(status) == Some(SuccessBadge) <==> minted)
    {
      MintBadges(MintFailed, Minted);
      status := None;
      tokenId := None;
      tokenData := None;
      certData := Null;
      if service.None? {
        status := Some(MintFailed);
        return None;
      }
      sent := Some(MintMetadata(form));
      if reply.Resolved? && reply.value.LowerOk? && !Nullish(reply.value.ok) {
        tokenId := Some(Display(reply.value.ok));
        status := Some(Minted);
      } else {
        status := Some(MintFailed);
      }
    }

    /** `fetchToken`: nothing unless the token id is a non-empty text; then the
        owner and the metadata are asked for in turn, and only when both
        answers arrive is the pair stored.  `called` says whether the guard
        let the handler through. */
    method FetchToken(owner: Reply<Value>, meta: Reply<Value>) returns (called: bool)
      modifies this`tokenData
      ensures called <==> tokenId.Some? && tokenId.value != ""
      ensures if called && service.Some? && owner.Resolved? && meta.Resolved?
              then tokenData == Some(TokenData(owner.value, meta.value))
              else tokenData == old(tokenData)
    {
      if tokenId.None? || tokenId.value == "" {
        return false;
      }
      called := true;
      if service.Some? && owner.Resolved? && meta.Resolved? {
        tokenData := Some(TokenData(owner.value, meta.value));
      }
    }

    /** `fetchCert`: nothing unless the token id is a non-empty text; then the
        certified metadata is stored and the certificate shown. */
    method FetchCert(cert: Reply<Value>) returns (called: bool)
      modifies this`certData, this`certVisible
      ensures called <==> tokenId.Some? && tokenId.value != ""
      ensures if called && service.Some? && cert.Resolved?
              then certData == cert.value && certVisible
              else certData == old(certData) && certVisible == old(certVisible)
    {
      if tokenId.None? || tokenId.value == "" {
        return false;
      }
      called := true;
      if service.Some? && cert.Resolved? {
        certData := cert.value;
        certVisible := true;
      }
    }

    /** The certificate modal is rendered while visible and holding a value. */
    predicate CertShown()
      reads this
    {
      certVisible && Truthy(certData)
    }

    /** Closing the modal (the backdrop or the Close button). */
    method CloseCert()
      modifies this`certVisible
      ensures !certVisible && !CertShown()
    {
      certVisible := false;
    }
  }
}
