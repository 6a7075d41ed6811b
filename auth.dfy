/** The credential subsystem as the two front ends see it.  The auth client and
    the identity it hands out are opaque: an identity is known here only by its
    principal text, and a service handle only by the interface it was generated
    from, the environment variable naming its canister, and the identity it is
    bound to. */
module Auth {
  import opened Base

  datatype Identity = Identity(principal: string)

  /** What the client knows: whether a sign-in is in effect, and under which identity. */
  datatype AuthClient = AuthClient(signedIn: bool, identity: Identity)

  /** How the interactive sign-in with the identity provider ends. */
  datatype LoginOutcome = Aborted | Approved(identity: Identity)

  /** A service handle, as `createActor(canisterId, {agentOptions: {identity}})` makes it. */
  datatype Handle = Handle(declarations: string, canisterIdVar: string, identity: Identity)

  const IcProvider: string := "https://identity.ic0.app"

  /** `process.env.DFX_NETWORK || "local"`: an unset or empty setting means "local". */
  function Network(env: Option<string>): (n: string)
    ensures n != ""
  {
    if env.Some? && env.value != "" then env.value else "local"
  }

  /** `network === "ic" ? production : local`. */
  function ProviderFor(env: Option<string>, localUrl: string): string
  {
    if Network(env) == "ic" then IcProvider else localUrl
  }

  /** The production provider is chosen exactly when the setting is "ic"; every
      other setting, and no setting at all, chooses the local provider. */
  lemma ProviderChoice(env: Option<string>, localUrl: string)
    requires localUrl != IcProvider
    ensures ProviderFor(env, localUrl) == IcProvider <==> env == Some("ic")
    ensures ProviderFor(env, localUrl) != IcProvider ==> ProviderFor(env, localUrl) == localUrl
    ensures env.None? ==> ProviderFor(env, localUrl) == localUrl
  {
  }

  /** A snapshot of the session fields, taken between the steps of a handler. */
  datatype Snapshot = Snapshot(isAuthenticated: bool, principal: Option<string>, handlesBuilt: bool)
}
