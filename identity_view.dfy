/** The identity view of the `gt_frontend` app (`IdentityManagement`): the
    identity record and credential list, identity registration, and the
    add-credential form.  This view calls the identity service through the
    module's default handle, not through the session's handles. */
module IdentityView {
  import opened Base
  import opened JsString
  import opened JsValue
  import opened Wire

  /** The add-credential form; every input holds text. */
  datatype CredentialForm = CredentialForm(
    credentialType: string, issuer: string, issuedAt: string,
    expirationDate: string, credentialHash: string)

  const EmptyForm: CredentialForm := CredentialForm("", "", "", "", "")

  /** The five inputs wired to `handleInputChange`, by their `name`. */
  datatype CredentialInput = TypeInput | IssuerInput | IssuedInput | ExpirationInput | HashInput

  /** The arguments of `addVerifiableCredential`. */
  datatype AddCall = AddCall(
    credentialType: string, issuer: string, issuedAt: int,
    expirationDate: seq<int>, credentialHash: string)

  /** The call built from the form.  `issuedMs` and `expirationMs` are the
      parsed dates in milliseconds; the expiry is sent only when its input is
      non-empty. */
  function AddArgs(form: CredentialForm, issuedMs: int, expirationMs: int): (c: AddCall)
    ensures c.credentialType == form.credentialType && c.issuer == form.issuer
    ensures c.credentialHash == form.credentialHash
    ensures c.issuedAt == issuedMs * NanosPerMilli && NanosToMillis(c.issuedAt) == issuedMs
    ensures |c.expirationDate| == if form.expirationDate == "" then 0 else 1
    ensures |c.expirationDate| == 1 ==>
      c.expirationDate[0] == expirationMs * NanosPerMilli && NanosToMillis(c.expirationDate[0]) == expirationMs
  {
    MillisRoundTrip(issuedMs);
    MillisRoundTrip(expirationMs);
    AddCall(form.credentialType, form.issuer, MillisToNanos(issuedMs),
            if form.expirationDate != "" then [MillisToNanos(expirationMs)] else [],
            form.credentialHash)
  }

  /** The list entry built from an added credential: the returned fields,
      with `credentialType` stored under `type`. */
  function AddedEntry(ok: Value): Value
  {
    Obj([("id", Field(ok, "id")), ("type", Field(ok, "credentialType")),
         ("issuer", Field(ok, "issuer")), ("issuedAt", Field(ok, "issuedAt")),
         ("expirationDate", Field(ok, "expirationDate")), ("credentialHash", Field(ok, "credentialHash"))])
  }

  /** What the list rendering needs of an entry: a text status, on which
      `toLowerCase` is called. */
  predicate Renderable(entry: Value)
  {
    Field(entry, "status").Str?
  }

  /** An added entry has no status and no `credentialType`, so the list
      rendering throws on it, whatever the service returned. */
  lemma AddedEntryUnrenderable(ok: Value)
    ensures !Renderable(AddedEntry(ok))
    ensures Field(AddedEntry(ok), "credentialType") == Undefined
  {
    var ps := AddedEntry(ok).props;
    assert Keys(ps) == ["id", "type", "issuer", "issuedAt", "expirationDate", "credentialHash"];
  }

  /** The entry the list rendering can show: the returned credential as it is. */
  function ListedEntry(ok: Value): Value
  {
    ok
  }

  /** Appending the returned credential keeps a renderable list renderable, and
      its type is read where the rendering looks for it. */
  lemma ListedEntryRenderable(list: seq<Value>, ok: Value)
    requires forall i :: 0 <= i < |list| ==> Renderable(list[i])
    requires Renderable(ok)
    ensures forall i :: 0 <= i < |list + [ListedEntry(ok)]| ==> Renderable((list + [ListedEntry(ok)])[i])
    ensures Field(ListedEntry(ok), "credentialType") == Field(ok, "credentialType")
  {
  }

  /** The credential count text, `"N credential"` with an `s` unless N is 1. */
  function CountLabel(n: nat): string
  {
    NatToString(n) + " credential" + (if n != 1 then "s" else "")
  }

  /** The count text ends in "s" exactly when the count is not one. */
  lemma CountLabelPlural(n: nat)
    ensures |CountLabel(n)| > 0
    ensures CountLabel(n)[|CountLabel(n)| - 1] == 's' <==> n != 1
  {
    var t := NatToString(n) + " credential";
    assert t[|t| - 1] == 'l';
    if n != 1 {
      assert CountLabel(n) == t + "s";
    } else {
      assert CountLabel(n) == t;
    }
  }

  class IdentityPanel {
    const principal: string
    var identity: Option<Value>
    var credentials: seq<Value>
    var loading: bool
    var error: Option<string>
    var showAddCredential: bool
    var form: CredentialForm

    /** The view as first rendered, before its load effect runs. */
    constructor(principal: string)
      ensures this.principal == principal
      ensures identity.None? && credentials == [] && loading && error.None?
      ensures !showAddCredential && form == EmptyForm
    {
      this.principal := principal;
      identity := None;
      credentials := [];
      loading := true;
      error := None;
      showAddCredential := false;
      form := EmptyForm;
    }

    /** `loadIdentityData`: both lookups run together.  When either rejects,
        the failure is reported and neither field changes; otherwise the
        identity is the first element of the optional reply (absent when the
        method is missing or the reply is empty) and the credentials are the
        list, or empty.  Loading ends either way. */
    method LoadIdentityData(identityCall: ListCall<Value>, credentialsCall: ListCall<Value>)
      modifies this`identity, this`credentials, this`loading, this`error
      ensures !loading
      ensures identityCall.CallThrew? || credentialsCall.CallThrew? ==>
        identity == old(identity) && credentials == old(credentials)
        && error == Some("Failed to load identity data")
      ensures !identityCall.CallThrew? && !credentialsCall.CallThrew? ==>
        identity == OptionalFirst(ListOrEmpty(identityCall))
        && credentials == ListOrEmpty(credentialsCall) && error.None?
    {
      loading := true;
      error := None;
      if identityCall.CallThrew? || credentialsCall.CallThrew? {
        error := Some("Failed to load identity data");
      } else {
        identity := OptionalFirst(ListOrEmpty(identityCall));
        credentials := ListOrEmpty(credentialsCall);
      }
      loading := false;
    }

    /** `registerIdentity`: an `ok` result becomes the identity; an `err`
        result is reported by its tag; a throw by the bare message. */
    method RegisterIdentity(reply: Reply<LowerResult<Value>>)
      modifies this`identity, this`error
      ensures reply.Resolved? && reply.value.LowerOk? ==>
        identity == Some(reply.value.ok) && error.None?
      ensures reply.Resolved? && reply.value.LowerErr? ==>
        identity == old(identity) && error == Some(FailureText("Failed to register identity", reply.value.err))
      ensures reply.Threw? ==> identity == old(identity) && error == Some("Failed to register identity")
    {
      error := None;
      if reply.Threw? {
        error := Some("Failed to register identity");
      } else if reply.value.LowerOk? {
        identity := Some(reply.value.ok);
      } else {
        error := Some(FailureText("Failed to register identity", reply.value.err));
      }
    }

    /** `handleInputChange` for the five inputs of the form. */
    method HandleInputChange(input: CredentialInput, value: string)
      modifies this`form
      ensures form == match input
        case TypeInput => old(form).(credentialType := value)
        case IssuerInput => old(form).(issuer := value)
        case IssuedInput => old(form).(issuedAt := value)
        case ExpirationInput => old(form).(expirationDate := value)
        case HashInput => old(form).(credentialHash := value)
    {
      match input
      case TypeInput => form := form.(credentialType := value);
      case IssuerInput => form := form.(issuer := value);
      case IssuedInput => form := form.(issuedAt := value);
      case ExpirationInput => form := form.(expirationDate := value);
      case HashInput => form := form.(credentialHash := value);
    }

    method OpenAddCredential()
      modifies this`showAddCredential
      ensures showAddCredential
    {
      showAddCredential := true;
    }

    method CloseAddCredential()
      modifies this`showAddCredential
      ensures !showAddCredential
    {
      showAddCredential := false;
    }

    /** `addCredential`.  `issuedMs` and `expirationMs` are the parsed dates
        (`None` for a date `BigInt` rejects); the expiry is only parsed when
        given.  The call is sent when every date it needs parsed.  An `ok`
        result whose payload can be read appends exactly one entry, empties
        the form and closes the modal; anything else leaves the list, the
        form and the modal as they were and reports the failure. */
    method AddCredential(issuedMs: Option<int>, expirationMs: Option<int>, reply: Reply<LowerResult<Value>>)
      returns (sent: Option<AddCall>)
      modifies this`credentials, this`form, this`showAddCredential, this`error
      ensures var parsed := issuedMs.Some? && (old(form).expirationDate == "" || expirationMs.Some?);
        && (sent.Some? <==> parsed)
        && (sent.Some? ==> sent.value == AddArgs(old(form), issuedMs.value,
                                                  if expirationMs.Some? then expirationMs.value else 0))
      ensures var added := sent.Some? && reply.Resolved? && reply.value.LowerOk? && !Nullish(reply.value.ok);
        && (added ==> credentials == old(credentials) + [AddedEntry(reply.value.ok)]
                      && form == EmptyForm && !showAddCredential && error.None?)
        && (!added ==> credentials == old(credentials) && form == old(form)
                       && showAddCredential == old(showAddCredential) && error.Some?)
      ensures sent.Some? && reply.Resolved? && reply.value.LowerErr? ==>
        error == Some(FailureText("Failed to add credential", reply.value.err))
      ensures sent.None? || reply.Threw? ==> error == Some("Failed to add credential")
    {
      error := None;
      if issuedMs.None? || (form.expirationDate != "" && expirationMs.None?) {
        error := Some("Failed to add credential");
        return None;
      }
      sent := Some(AddArgs(form, issuedMs.value, if expirationMs.Some? then expirationMs.value else 0));
      if reply.Threw? {
        error := Some("Failed to add credential");
      } else if reply.value.LowerErr? {
        error := Some(FailureText("Failed to add credential", reply.value.err));
      } else if Nullish(reply.value.ok) {
        error := Some("Failed to add credential");
      } else {
        credentials := credentials + [AddedEntry(reply.value.ok)];
        form := EmptyForm;
        showAddCredential := false;
      }
    }
  }
}
