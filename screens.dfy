/** The top-level screens the two front ends choose between. */
module Screens {
  datatype Screen =
    | Spinner                 // the loading placeholder
    | SignIn                  // the hero card with the sign-in button
    | Dashboard
    | IdentityManagement
    | AssetManagement
    | Marketplace
    | LendingBorrowing
    | PropertyVerification
}
