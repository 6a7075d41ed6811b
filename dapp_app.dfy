/** The session and view router of the `globaltrust_dapp` front end: the
    identity-provider choice, the session state (authentication, principal, the
    five service handles, the selected view, the theme, the loading flag), the
    handlers that change it, and the choice of the screen to show. */
module DappApp {
  import opened Base
  import opened Auth
  import opened Screens

  const LocalProvider: string := "http://ucwa4-rx777-77774-qaada-cai.localhost:4943"

  /** The identity provider the sign-in flow is sent to. */
  function IdentityProvider(env: Option<string>): (url: string)
    ensures url == IcProvider <==> env == Some("ic")
    ensures url != IcProvider ==> url == LocalProvider
  {
    ProviderChoice(env, LocalProvider);
    ProviderFor(env, LocalProvider)
  }

  /** The five service handles `updateActors` stores, one per backend canister. */
  datatype Registry = Registry(
    identityVerifier: Handle,
    propertyToken: Handle,
    propertyMarketplace: Handle,
    lendingBorrowing: Handle,
    propertyVerifier: Handle)

  /** `updateActors`: the handles it builds, every one bound to one identity.
      The property-verifier handle is generated from the same `property`
      declarations as the property-token handle. */
  function Actors(id: Identity): (r: Registry)
    ensures BoundTo(r, id)
    ensures r.propertyVerifier.declarations == r.propertyToken.declarations
    ensures r.propertyVerifier.canisterIdVar != r.propertyToken.canisterIdVar
  {
    Registry(
      Handle("identity", "IDENTITY_VERIFIER_CANISTER_ID", id),
      Handle("property", "PROPERTY_TOKEN_CANISTER_ID", id),
      Handle("marketplace", "PROPERTY_MARKETPLACE_CANISTER_ID", id),
      Handle("lending", "LENDING_BORROWING_CANISTER_ID", id),
      Handle("property", "PROPERTY_VERIFIER_CANISTER_ID", id))
  }

  /** Every handle of the registry acts as `id`. */
  predicate BoundTo(r: Registry, id: Identity)
  {
    && r.identityVerifier.identity == id
    && r.propertyToken.identity == id
    && r.propertyMarketplace.identity == id
    && r.lendingBorrowing.identity == id
    && r.propertyVerifier.identity == id
  }

  /** `renderCurrentView`. */
  function RenderCurrentView(authenticated: bool, view: string): Screen
  {
    if !authenticated then SignIn
    else match view
      case "identity" => IdentityManagement
      case "assets" => AssetManagement
      case "marketplace" => Marketplace
      case "lending" => LendingBorrowing
      case "verification" => PropertyVerification
      case _ => Dashboard
  }

  /** Without authentication the sign-in screen is shown whatever the view; with
      it, each of the five named views has its screen and every other string,
      "dashboard" included, shows the dashboard. */
  lemma RenderRoutes(authenticated: bool, view: string)
    ensures !authenticated ==> RenderCurrentView(authenticated, view) == SignIn
    ensures RenderCurrentView(authenticated, view) == SignIn <==> !authenticated
    ensures RenderCurrentView(authenticated, view) == IdentityManagement <==> authenticated && view == "identity"
    ensures RenderCurrentView(authenticated, view) == AssetManagement <==> authenticated && view == "assets"
    ensures RenderCurrentView(authenticated, view) == Marketplace <==> authenticated && view == "marketplace"
    ensures RenderCurrentView(authenticated, view) == LendingBorrowing <==> authenticated && view == "lending"
    ensures RenderCurrentView(authenticated, view) == PropertyVerification <==> authenticated && view == "verification"
    ensures RenderCurrentView(authenticated, view) == Dashboard <==>
      authenticated && view !in {"identity", "assets", "marketplace", "lending", "verification"}
    ensures RenderCurrentView(authenticated, view) != Spinner
  {
  }

  /** `theme === "light" ? "dark" : "light"`. */
  function Toggled(theme: string): string
  {
    if theme == "light" then "dark" else "light"
  }

  /** Toggling swaps light and dark, so toggling twice restores either theme. */
  lemma ToggleTwice(theme: string)
    requires theme == "light" || theme == "dark"
    ensures Toggled(theme) != theme && Toggled(Toggled(theme)) == theme
  {
  }

  class Session {
    const provider: string
    var authClient: Option<AuthClient>
    var isAuthenticated: bool
    var actors: Option<Registry>      // `{}` before sign-in and after sign-out
    var principal: Option<string>
    var currentView: string
    var theme: string
    var loading: bool

    /** The theme is light or dark; the handle map is all or nothing; a principal
        is only ever held while authenticated, with the handles bound to it. */
    ghost predicate Valid()
      reads this
    {
      && (theme == "light" || theme == "dark")
      && (principal.Some? ==> isAuthenticated && actors == Some(Actors(Identity(principal.value))))
      && (isAuthenticated ==> authClient.Some?)
    }

    /** The screen shown: a spinner while loading, otherwise `renderCurrentView`. */
    function Page(): Screen
      reads this
    {
      if loading then Spinner else RenderCurrentView(isAuthenticated, currentView)
    }

    /** The header is rendered exactly while authenticated (and not loading). */
    predicate HeaderShown()
      reads this
    {
      !loading && isAuthenticated
    }

    /** The initial state: signed out, no client yet, no handles, the dashboard
        selected, the light theme, and loading. */
    constructor(env: Option<string>)
      ensures Valid()
      ensures provider == IdentityProvider(env)
      ensures authClient.None? && !isAuthenticated && principal.None? && actors.None?
      ensures currentView == "dashboard" && theme == "light" && loading
    {
      provider := IdentityProvider(env);
      authClient := None;
      isAuthenticated := false;
      actors := None;
      principal := None;
      currentView := "dashboard";
      theme := "light";
      loading := true;
    }

    /** `initializeAuth`, run once on mount before any principal is known.
        `created` is the client when both `AuthClient.create()` and
        `client.isAuthenticated()` resolved, and `None` when either rejected: the
        failure is only logged.  Loading ends in every case. */
    method InitializeAuth(created: Option<AuthClient>)
      requires Valid() && principal.None?
      modifies this
      ensures Valid()
      ensures !loading && currentView == old(currentView) && theme == old(theme)
      ensures created.None? ==>
        authClient == old(authClient) && isAuthenticated == old(isAuthenticated)
        && actors == old(actors) && principal == old(principal)
      ensures created.Some? ==> authClient == created && isAuthenticated == created.value.signedIn
      ensures created.Some? && created.value.signedIn ==>
        actors == Some(Actors(created.value.identity)) && principal == Some(created.value.identity.principal)
      ensures created.Some? && !created.value.signedIn ==>
        actors == old(actors) && principal == old(principal)
    {
      if created.Some? {
        var client := created.value;
        authClient := Some(client);
        isAuthenticated := client.signedIn;
        if client.signedIn {
          UpdateActors(client);
          principal := Some(client.identity.principal);
        }
      }
      loading := false;
    }

    /** `updateActors`: one assignment of the complete handle map. */
    method UpdateActors(client: AuthClient)
      modifies this`actors
      ensures actors == Some(Actors(client.identity))
    {
      actors := Some(Actors(client.identity));
    }

    /** The part of `onSuccess` after `await updateActors(authClient)`. */
    method CommitSignIn()
      requires authClient.Some?
      modifies this`isAuthenticated, this`principal
      ensures isAuthenticated && principal == Some(authClient.value.identity.principal)
    {
      isAuthenticated := true;
      principal := Some(authClient.value.identity.principal);
    }

    /** `login`: nothing without a client; otherwise the provider flow is started
        with this app's provider (returned as `requested`), and when it is
        approved `onSuccess` first builds the handles and only then marks the
        session authenticated and records the principal.  `midway` is the
        session between those two steps: handles exist while the old
        authentication state still holds. */
    method Login(outcome: LoginOutcome) returns (requested: Option<string>, ghost midway: Snapshot)
      requires Valid()
      modifies this
      ensures Valid()
      ensures old(authClient).None? ==> requested.None? && unchanged(this)
      ensures old(authClient).Some? ==> requested == Some(provider)
      ensures old(authClient).Some? && outcome.Aborted? ==> unchanged(this)
      ensures old(authClient).Some? && outcome.Approved? ==>
        && authClient == Some(AuthClient(true, outcome.identity))
        && isAuthenticated && principal == Some(outcome.identity.principal)
        && actors == Some(Actors(outcome.identity))
        && currentView == old(currentView) && theme == old(theme) && loading == old(loading)
        && midway == Snapshot(old(isAuthenticated), old(principal), true)
    {
      midway := Snapshot(isAuthenticated, principal, actors.Some?);
      if authClient.None? {
        return None, midway;
      }
      requested := Some(provider);
      if outcome.Approved? {
        authClient := Some(AuthClient(true, outcome.identity));
        UpdateActors(authClient.value);
        midway := Snapshot(isAuthenticated, principal, actors.Some?);
        CommitSignIn();
      }
    }

    /** `logout`: nothing without a client; otherwise the client signs out and the
        session returns to signed out, no principal, no handles and the
        dashboard; the theme and the loading flag are kept. */
    method Logout()
      requires Valid()
      modifies this
      ensures Valid()
      ensures old(authClient).None? ==> unchanged(this)
      ensures old(authClient).Some? ==>
        && authClient == Some(old(authClient).value.(signedIn := false))
        && !isAuthenticated && principal.None? && actors.None? && currentView == "dashboard"
        && theme == old(theme) && loading == old(loading)
      ensures old(authClient).Some? && !loading ==> Page() == SignIn && !HeaderShown()
    {
      if authClient.None? {
        return;
      }
      authClient := Some(authClient.value.(signedIn := false));
      isAuthenticated := false;
      principal := None;
      actors := None;
      currentView := "dashboard";
    }

    /** `toggleTheme`: light and dark swap; nothing else changes. */
    method ToggleTheme()
      requires Valid()
      modifies this`theme
      ensures Valid()
      ensures theme == Toggled(old(theme)) && theme != old(theme)
    {
      theme := if theme == "light" then "dark" else "light";
    }

    /** `setCurrentView`, the setter handed to the header. */
    method SetCurrentView(view: string)
      requires Valid()
      modifies this`currentView
      ensures Valid() && currentView == view
    {
      currentView := view;
    }
  }
}
