/** The marketplace view of the `globaltrust_dapp` app: which actions a
    listing offers to the user, how listings are tagged, and the handlers that
    load listings and send offers and bids. */
module DappMarketplace {
  import opened Base
  import opened JsString
  import opened JsValue
  import opened Wire
  import Auth

  datatype Bid = Bid(amount: int)

  /** A listing as the service returns it, reduced to the fields the view
      decides on: `status` and `listingType` are variant objects,
      `highestBid` and `endDate` Candid optionals, times in nanoseconds. */
  datatype Listing = Listing(
    id: int, seller: string, status: Value, listingType: Value,
    highestBid: seq<Bid>, timestamp: int, endDate: seq<int>)

  /** The offer/bid buttons: an active listing whose seller text does not
      contain the user's principal. */
  predicate ShowActions(listing: Listing, principal: string)
  {
    HasTag(listing.status, "active") && !Includes(listing.seller, principal)
  }

  /** The "Your Listing" note: the seller text contains the principal. */
  predicate ShowYourListing(listing: Listing, principal: string)
  {
    Includes(listing.seller, principal)
  }

  /** The note appears exactly when the principal occurs somewhere in the
      seller text, and never together with the buttons; the buttons appear
      exactly for active listings without the note. */
  lemma ActionsOrYourListing(listing: Listing, principal: string)
    ensures ShowYourListing(listing, principal) <==> exists i :: OccursAt(listing.seller, principal, i)
    ensures !(ShowActions(listing, principal) && ShowYourListing(listing, principal))
    ensures ShowActions(listing, principal) <==>
      HasTag(listing.status, "active") && !ShowYourListing(listing, principal)
  {
    IncludesIffOccurs(listing.seller, principal);
  }

  datatype Action = MakeOffer | PlaceBid

  /** The action button: a `sale` listing takes offers, any other takes bids. */
  function ActionFor(listing: Listing): (a: Action)
    ensures a == MakeOffer <==> HasTag(listing.listingType, "sale")
  {
    if HasTag(listing.listingType, "sale") then MakeOffer else PlaceBid
  }

  /** The listing-type tag colour: blue for `sale`, purple for anything else. */
  function ListingTypeTone(listing: Listing): (t: Tone)
    ensures t == Blue <==> ActionFor(listing) == MakeOffer
    ensures t == Blue || t == Purple
  {
    if HasTag(listing.listingType, "sale") then Blue else Purple
  }

  /** The highest bid shown: the amount of element 0, only when there is one. */
  function HighestBid(listing: Listing): (amount: Option<int>)
    ensures amount.Some? <==> |listing.highestBid| > 0
    ensures amount.Some? ==> amount.value == listing.highestBid[0].amount
  {
    match OptionalFirst(listing.highestBid)
    case Some(bid) => Some(bid.amount)
    case None => None
  }

  /** `getStatusColor(Object.keys(status)[0])`. */
  function StatusTone(status: Value): Tone
  {
    match KeyText(status)
    case "active" => Green
    case "pending" => Yellow
    case "in_escrow" => Blue
    case "completed" => Gray
    case "cancelled" => Red
    case _ => Gray
  }

  /** Active, pending, escrowed and cancelled listings have colours of their
      own; completed listings and every other tag share the default grey. */
  lemma StatusTones(tag: string)
    ensures StatusTone(Variant(tag)) == Green <==> tag == "active"
    ensures StatusTone(Variant(tag)) == Yellow <==> tag == "pending"
    ensures StatusTone(Variant(tag)) == Blue <==> tag == "in_escrow"
    ensures StatusTone(Variant(tag)) == Red <==> tag == "cancelled"
    ensures StatusTone(Variant(tag)) == Gray <==> tag !in {"active", "pending", "in_escrow", "cancelled"}
  {
    VariantTag(tag, tag);
  }

  /** The filter form: five empty fields. */
  const InitialFilters: Props :=
    [("status", Str("")), ("minPrice", Str("")), ("maxPrice", Str("")),
     ("propertyType", Str("")), ("listingType", Str(""))]

  class MarketplaceView {
    const principal: string
    /** The handle the view calls through, `actors.propertyMarketplace`. */
    const service: Option<Auth.Handle>
    var listings: seq<Listing>
    var loading: bool
    var error: Option<string>
    var filters: Props
    var showOfferModal: bool
    var showBidModal: bool
    var selectedListing: Option<Listing>
    var offerAmount: string
    var bidAmount: string

    /** The listings rendered: the loaded list itself, in order; the filter
        form is never consulted. */
    function Displayed(): seq<Listing>
      reads this
    {
      listings
    }

    /** The view as first rendered. */
    constructor(principal: string, service: Option<Auth.Handle>)
      ensures this.principal == principal && this.service == service
      ensures listings == [] && loading && error.None? && filters == InitialFilters
      ensures !showOfferModal && !showBidModal && selectedListing.None?
      ensures offerAmount == "" && bidAmount == ""
    {
      this.principal := principal;
      this.service := service;
      listings := [];
      loading := true;
      error := None;
      filters := InitialFilters;
      showOfferModal := false;
      showBidModal := false;
      selectedListing := None;
      offerAmount := "";
      bidAmount := "";
    }

    /** `loadListings`: without a handle or method the list becomes empty; a
        rejected call keeps the old list and reports the failure; loading ends
        either way. */
    method LoadListings(call: ListCall<Listing>)
      modifies this`listings, this`loading, this`error
      ensures !loading
      ensures var c := if service.None? then MethodMissing else call;
        if c.CallThrew? then listings == old(listings) && error == Some("Failed to load listings")
        else listings == ListOrEmpty(c) && error.None?
    {
      loading := true;
      error := None;
      var c := if service.None? then MethodMissing else call;
      if c.CallThrew? {
        error := Some("Failed to load listings");
      } else {
        listings := ListOrEmpty(c);
      }
      loading := false;
    }

    /** Editing one filter field: only that field changes, and what is
        displayed does not change. */
    method SetFilter(field: string, value: string)
      modifies this`filters
      ensures filters == Put(old(filters), field, Str(value))
      ensures Displayed() == old(Displayed())
    {
      filters := Put(filters, field, Str(value));
    }

    /** Make Offer on a listing: select it and open the offer modal. */
    method OpenOffer(listing: Listing)
      modifies this`selectedListing, this`showOfferModal
      ensures selectedListing == Some(listing) && showOfferModal
    {
      selectedListing := Some(listing);
      showOfferModal := true;
    }

    /** Place Bid on a listing: select it and open the bid modal. */
    method OpenBid(listing: Listing)
      modifies this`selectedListing, this`showBidModal
      ensures selectedListing == Some(listing) && showBidModal
    {
      selectedListing := Some(listing);
      showBidModal := true;
    }

    method SetOfferAmount(value: string)
      modifies this`offerAmount
      ensures offerAmount == value
    {
      offerAmount := value;
    }

    method SetBidAmount(value: string)
      modifies this`bidAmount
      ensures bidAmount == value
    {
      bidAmount := value;
    }

    /** `submitOffer`.  `cents` is the converted amount (`None` when `BigInt`
        throws); with no selection, handle or amount it throws before the
        call.  `sent` is the (listing id, cents) pair sent.  An `ok` result
        closes the modal, clears the amount and the selection and reloads; an
        `err` result names the error; a throw reports the bare failure. */
    method SubmitOffer(cents: Option<int>, reply: Reply<LowerResult<Value>>, reload: ListCall<Listing>)
      returns (sent: Option<(int, int)>)
      modifies this`listings, this`loading, this`error, this`showOfferModal, this`offerAmount,
               this`selectedListing
      ensures sent.Some? <==> service.Some? && old(selectedListing).Some? && cents.Some?
      ensures sent.Some? ==> sent.value == (old(selectedListing).value.id, cents.value)
      ensures (sent.None? || reply.Threw?) ==>
        && error == Some("Failed to submit offer")
        && listings == old(listings) && loading == old(loading) && showOfferModal == old(showOfferModal)
        && offerAmount == old(offerAmount) && selectedListing == old(selectedListing)
      ensures sent.Some? && reply.Resolved? && reply.value.LowerErr? ==>
        && error == Some("Failed to submit offer: " + Display(reply.value.err))
        && listings == old(listings) && loading == old(loading) && showOfferModal == old(showOfferModal)
        && offerAmount == old(offerAmount) && selectedListing == old(selectedListing)
      ensures sent.Some? && reply.Resolved? && reply.value.LowerOk? ==>
        && !showOfferModal && offerAmount == "" && selectedListing.None? && !loading
        && (if reload.CallThrew? then listings == old(listings) && error == Some("Failed to load listings")
            else listings == ListOrEmpty(reload) && error.None?)
    {
      error := None;
      if selectedListing.None? || service.None? || cents.None? {
        error := Some("Failed to submit offer");
        return None;
      }
      sent := Some((selectedListing.value.id, cents.value));
      match reply {
        case Threw =>
          error := Some("Failed to submit offer");
        case Resolved(result) =>
          if result.LowerOk? {
            showOfferModal := false;
            offerAmount := "";
            selectedListing := None;
            LoadListings(reload);
          } else {
            error := Some("Failed to submit offer: " + Display(result.err));
          }
      }
    }

    /** `placeBid`, the same steps as `submitOffer` on the bid modal and amount. */
    method PlaceBid(cents: Option<int>, reply: Reply<LowerResult<Value>>, reload: ListCall<Listing>)
      returns (sent: Option<(int, int)>)
      modifies this`listings, this`loading, this`error, this`showBidModal, this`bidAmount,
               this`selectedListing
      ensures sent.Some? <==> service.Some? && old(selectedListing).Some? && cents.Some?
      ensures sent.Some? ==> sent.value == (old(selectedListing).value.id, cents.value)
      ensures (sent.None? || reply.Threw?) ==>
        && error == Some("Failed to place bid")
        && listings == old(listings) && loading == old(loading) && showBidModal == old(showBidModal)
        && bidAmount == old(bidAmount) && selectedListing == old(selectedListing)
      ensures sent.Some? && reply.Resolved? && reply.value.LowerErr? ==>
        && error == Some("Failed to place bid: " + Display(reply.value.err))
        && listings == old(listings) && loading == old(loading) && showBidModal == old(showBidModal)
        && bidAmount == old(bidAmount) && selectedListing == old(selectedListing)
      ensures sent.Some? && reply.Resolved? && reply.value.LowerOk? ==>
        && !showBidModal && bidAmount == "" && selectedListing.None? && !loading
        && (if reload.CallThrew? then listings == old(listings) && error == Some("Failed to load listings")
            else listings == ListOrEmpty(reload) && error.None?)
    {
      error := None;
      if selectedListing.None? || service.None? || cents.None? {
        error := Some("Failed to place bid");
        return None;
      }
      sent := Some((selectedListing.value.id, cents.value));
      match reply {
        case Threw =>
          error := Some("Failed to place bid");
        case Resolved(result) =>
          if result.LowerOk? {
            showBidModal := false;
            bidAmount := "";
            selectedListing := None;
            LoadListings(reload);
          } else {
            error := Some("Failed to place bid: " + Display(result.err));
          }
      }
    }
  }
}
