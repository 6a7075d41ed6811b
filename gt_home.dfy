/** The session and view router of the `gt_frontend` app (`Home`): the same
    session machine as the dapp with its own handle set, its own view names, a
    different step order in the sign-in callback, and the `theme-dark` class it
    keeps on the document root. */
module GtHome {
  import opened Base
  import opened Auth
  import opened Screens

  const LocalProvider: string := "http://ulvla-h7777-77774-qaacq-cai.localhost:4943"

  /** The identity provider the sign-in flow is sent to. */
  function IdentityProvider(env: Option<string>): (url: string)
    ensures url == IcProvider <==> env == Some("ic")
    ensures url != IcProvider ==> url == LocalProvider
  {
    ProviderChoice(env, LocalProvider);
    ProviderFor(env, LocalProvider)
  }

  /** The five service handles `updateActors` stores. */
  datatype Registry = Registry(
    identity: Handle,
    rwaNft: Handle,
    rwaVerifier: Handle,
    marketplace: Handle,
    lending: Handle)

  /** `updateActors`: one handle per canister, each from its own declarations and
      all bound to one identity. */
  function Actors(id: Identity): (r: Registry)
    ensures BoundTo(r, id)
    ensures r.identity.declarations == "identity" && r.rwaNft.declarations == "rwa_nft"
    ensures r.rwaVerifier.declarations == "rwa_verifier" && r.marketplace.declarations == "marketplace"
    ensures r.lending.declarations == "lending"
  {
    Registry(
      Handle("identity", "CANISTER_ID_IDENTITY", id),
      Handle("rwa_nft", "CANISTER_ID_RWA_NFT", id),
      Handle("rwa_verifier", "CANISTER_ID_RWA_VERIFIER", id),
      Handle("marketplace", "CANISTER_ID_MARKETPLACE", id),
      Handle("lending", "CANISTER_ID_LENDING", id))
  }

  /** Every handle of the registry acts as `id`. */
  predicate BoundTo(r: Registry, id: Identity)
  {
    && r.identity.identity == id
    && r.rwaNft.identity == id
    && r.rwaVerifier.identity == id
    && r.marketplace.identity == id
    && r.lending.identity == id
  }

  /** `actors[key]`: the handle stored under a property name; `undefined`
      (`None`) for any other name, and for every name before sign-in. */
  function HandleNamed(actors: Option<Registry>, key: string): (h: Option<Handle>)
    ensures h.Some? ==> actors.Some? && key in {"identity", "rwaNft", "rwaVerifier", "marketplace", "lending"}
  {
    if actors.None? then None
    else match key
      case "identity" => Some(actors.value.identity)
      case "rwaNft" => Some(actors.value.rwaNft)
      case "rwaVerifier" => Some(actors.value.rwaVerifier)
      case "marketplace" => Some(actors.value.marketplace)
      case "lending" => Some(actors.value.lending)
      case _ => None
  }

  /** The lending and verification views look their services up as
      `actors.lendingBorrowing` and `actors.propertyVerifier`, names this app's
      handle set does not have: for every identity both lookups miss. */
  lemma ComponentLookupsMiss(id: Identity)
    ensures HandleNamed(Some(Actors(id)), "lendingBorrowing").None?
    ensures HandleNamed(Some(Actors(id)), "propertyVerifier").None?
  {
  }

  /** `renderCurrentView`; the asset screen is reached through "nfts". */
  function RenderCurrentView(authenticated: bool, view: string): Screen
  {
    if !authenticated then SignIn
    else match view
      case "identity" => IdentityManagement
      case "verification" => PropertyVerification
      case "nfts" => AssetManagement
      case "marketplace" => Marketplace
      case "lending" => LendingBorrowing
      case _ => Dashboard
  }

  /** Without authentication the sign-in screen is shown whatever the view; with
      it, the five named views select their screens and every other string,
      "dashboard" and "assets" included, shows the dashboard. */
  lemma RenderRoutes(authenticated: bool, view: string)
    ensures RenderCurrentView(authenticated, view) == SignIn <==> !authenticated
    ensures RenderCurrentView(authenticated, view) == IdentityManagement <==> authenticated && view == "identity"
    ensures RenderCurrentView(authenticated, view) == PropertyVerification <==> authenticated && view == "verification"
    ensures RenderCurrentView(authenticated, view) == AssetManagement <==> authenticated && view == "nfts"
    ensures RenderCurrentView(authenticated, view) == Marketplace <==> authenticated && view == "marketplace"
    ensures RenderCurrentView(authenticated, view) == LendingBorrowing <==> authenticated && view == "lending"
    ensures RenderCurrentView(authenticated, view) == Dashboard <==>
      authenticated && view !in {"identity", "verification", "nfts", "marketplace", "lending"}
    ensures authenticated ==> RenderCurrentView(authenticated, "assets") == Dashboard
    ensures RenderCurrentView(authenticated, view) != Spinner
  {
  }

  /** The functional update `v => v === "light" ? "dark" : "light"`. */
  function Toggled(theme: string): string
  {
    if theme == "light" then "dark" else "light"
  }

  /** `classList.toggle("theme-dark", theme === "dark")`: the class is added for
      the dark theme and removed otherwise; other classes are kept. */
  function WithThemeClass(classes: set<string>, theme: string): (r: set<string>)
    ensures "theme-dark" in r <==> theme == "dark"
    ensures r - {"theme-dark"} == classes - {"theme-dark"}
  {
    if theme == "dark" then classes + {"theme-dark"} else classes - {"theme-dark"}
  }

  /** Toggling twice restores the theme and the root classes. */
  lemma ToggleTwice(classes: set<string>, theme: string)
    requires theme == "light" || theme == "dark"
    requires "theme-dark" in classes <==> theme == "dark"
    ensures Toggled(Toggled(theme)) == theme
    ensures WithThemeClass(WithThemeClass(classes, Toggled(theme)), Toggled(Toggled(theme))) == classes
  {
    var once := WithThemeClass(classes, Toggled(theme));
    var twice := WithThemeClass(once, theme);
    assert twice - {"theme-dark"} == classes - {"theme-dark"};
    assert forall c :: c in twice <==> c in classes;
  }

  class HomeSession {
    const provider: string
    var authClient: Option<AuthClient>
    var isAuthenticated: bool
    var actors: Option<Registry>      // `{}` before sign-in and after sign-out
    var principal: Option<string>
    var currentView: string
    var theme: string
    var loading: bool
    /** The class list of the document root, kept in step with the theme. */
    var rootClasses: set<string>

    /** The theme is light or dark and the root carries `theme-dark` exactly for
        dark; a principal is only held while authenticated, with the handles
        bound to it. */
    ghost predicate Valid()
      reads this
    {
      && (theme == "light" || theme == "dark")
      && ("theme-dark" in rootClasses <==> theme == "dark")
      && (principal.Some? ==> isAuthenticated && actors == Some(Actors(Identity(principal.value))))
      && (isAuthenticated ==> authClient.Some?)
    }

    /** The lending service as stored by `updateActors`: once a principal is
        known it is there, generated from the `lending` declarations and bound
        to that principal. */
    function LendingHandle(): (h: Option<Handle>)
      reads this
      ensures Valid() && principal.Some? ==>
        h.Some? && h.value.declarations == "lending" && h.value.identity == Identity(principal.value)
    {
      HandleNamed(actors, "lending")
    }

    /** The verification service as stored by `updateActors`, likewise present
        and bound to the principal once one is known. */
    function VerifierHandle(): (h: Option<Handle>)
      reads this
      ensures Valid() && principal.Some? ==>
        h.Some? && h.value.declarations == "rwa_verifier" && h.value.identity == Identity(principal.value)
    {
      HandleNamed(actors, "rwaVerifier")
    }

    /** The screen shown: a spinner while loading, otherwise `renderCurrentView`. */
    function Page(): Screen
      reads this
    {
      if loading then Spinner else RenderCurrentView(isAuthenticated, currentView)
    }

    /** The header is rendered exactly while authenticated and not loading. */
    predicate HeaderShown()
      reads this
    {
      !loading && isAuthenticated
    }

    /** The initial state, with the theme effect run once on mount: signed out,
        no client, no handles, the dashboard, the light theme, loading, and the
        root stripped of `theme-dark`. */
    constructor(env: Option<string>, documentClasses: set<string>)
      ensures Valid()
      ensures provider == IdentityProvider(env)
      ensures authClient.None? && !isAuthenticated && principal.None? && actors.None?
      ensures currentView == "dashboard" && theme == "light" && loading
      ensures rootClasses == documentClasses - {"theme-dark"}
    {
      provider := IdentityProvider(env);
      authClient := None;
      isAuthenticated := false;
      actors := None;
      principal := None;
      currentView := "dashboard";
      theme := "light";
      loading := true;
      rootClasses := WithThemeClass(documentClasses, "light");
    }

    /** `initializeAuth`, as in the dapp: `created` is `None` when
        `AuthClient.create()` or `isAuthenticated()` rejected, which is only
        logged; loading ends in every case. */
    method InitializeAuth(created: Option<AuthClient>)
      requires Valid() && principal.None?
      modifies this
      ensures Valid()
      ensures !loading && currentView == old(currentView) && theme == old(theme)
      ensures rootClasses == old(rootClasses)
      ensures created.None? ==>
        authClient == old(authClient) && isAuthenticated == old(isAuthenticated)
        && actors == old(actors) && principal == old(principal)
      ensures created.Some? ==> authClient == created && isAuthenticated == created.value.signedIn
      ensures created.Some? && created.value.signedIn ==>
        actors == Some(Actors(created.value.identity)) && principal == Some(created.value.identity.principal)
      ensures created.Some? && !created.value.signedIn ==>
        actors == old(actors) && principal == old(principal)
    {
      if created.Some? {
        var client := created.value;
        authClient := Some(client);
        isAuthenticated := client.signedIn;
        if client.signedIn {
          UpdateActors(client);
          principal := Some(client.identity.principal);
        }
      }
      loading := false;
    }

    /** `updateActors`: one assignment of the complete handle set. */
    method UpdateActors(client: AuthClient)
      modifies this`actors
      ensures actors == Some(Actors(client.identity))
    {
      actors := Some(Actors(client.identity));
    }

    /** `login`: nothing without a client; otherwise the provider flow is started
        with this app's provider, and an approved sign-in runs `onSuccess`, which
        here marks the session authenticated FIRST, then builds the handles, then
        records the principal.  `midway` is the session right after the first
        step: authenticated while the principal and the handles are still the
        old ones, so from a signed-out session it is authenticated with no
        principal. */
    method Login(outcome: LoginOutcome) returns (requested: Option<string>, ghost midway: Snapshot)
      requires Valid()
      modifies this
      ensures Valid()
      ensures old(authClient).None? ==> requested.None? && unchanged(this)
      ensures old(authClient).Some? ==> requested == Some(provider)
      ensures old(authClient).Some? && outcome.Aborted? ==> unchanged(this)
      ensures old(authClient).Some? && outcome.Approved? ==>
        && authClient == Some(AuthClient(true, outcome.identity))
        && isAuthenticated && principal == Some(outcome.identity.principal)
        && actors == Some(Actors(outcome.identity))
        && currentView == old(currentView) && theme == old(theme) && loading == old(loading)
        && rootClasses == old(rootClasses)
        && midway == Snapshot(true, old(principal), old(actors).Some?)
    {
      midway := Snapshot(isAuthenticated, principal, actors.Some?);
      if authClient.None? {
        return None, midway;
      }
      requested := Some(provider);
      if outcome.Approved? {
        authClient := Some(AuthClient(true, outcome.identity));
        isAuthenticated := true;
        midway := Snapshot(isAuthenticated, principal, actors.Some?);
        UpdateActors(authClient.value);
        principal := Some(outcome.identity.principal);
      }
    }

    /** `logout`: nothing without a client; otherwise signed out, no principal,
        no handles and the dashboard; theme, root classes and loading are kept. */
    method Logout()
      requires Valid()
      modifies this
      ensures Valid()
      ensures old(authClient).None? ==> unchanged(this)
      ensures old(authClient).Some? ==>
        && authClient == Some(old(authClient).value.(signedIn := false))
        && !isAuthenticated && principal.None? && actors.None? && currentView == "dashboard"
        && theme == old(theme) && loading == old(loading) && rootClasses == old(rootClasses)
      ensures old(authClient).Some? && !loading ==> Page() == SignIn && !HeaderShown()
    {
      if authClient.None? {
        return;
      }
      authClient := Some(authClient.value.(signedIn := false));
      isAuthenticated := false;
      principal := None;
      actors := None;
      currentView := "dashboard";
    }

    /** `toggleTheme` followed by the theme effect: light and dark swap and the
        root class follows; nothing else changes. */
    method ToggleTheme()
      requires Valid()
      modifies this`theme, this`rootClasses
      ensures Valid()
      ensures theme == Toggled(old(theme)) && theme != old(theme)
      ensures rootClasses == WithThemeClass(old(rootClasses), theme)
    {
      theme := if theme == "light" then "dark" else "light";
      rootClasses := WithThemeClass(rootClasses, theme);
    }

    /** `setCurrentView`, the setter handed to the header. */
    method SetCurrentView(view: string)
      requires Valid()
      modifies this`currentView
      ensures Valid() && currentView == view
    {
      currentView := view;
    }
  }
}
